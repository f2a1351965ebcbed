/** The other half of definite initialisation: where the rule on trees is broken, there is a path
    through the flow graph that uses a cell it has not allocated. */
module Offences {
  import opened Wrappers
  import opened Ast
  import opened Ir
  import opened Lowering
  import opened Shape
  import opened Visits
  import opened Stages
  import opened Scoping
  import opened FlowGraph
  import opened Paths
  import opened Declarations
  import opened Initialised
  import Correctness
  import Reaching

  /** A path from the entry block `lo`. */
  predicate Route(c: Code, lo: nat, path: seq<nat>) {
    path != [] && path[0] == lo && (forall j :: 0 <= j < |path| ==> lo <= path[j]) && Path(c, path)
  }

  /** Some path arrives at the block without writing the register on the way. */
  ghost predicate Arrives(c: Code, lo: nat, l: nat, r: nat) {
    exists path :: ArrivesBy(c, lo, l, r, path)
  }

  predicate ArrivesBy(c: Code, lo: nat, l: nat, r: nat, path: seq<nat>) {
    Route(c, lo, path) && path[|path| - 1] == l && Avoids(Trace(c, path[..|path| - 1]), r)
  }

  /** Some path gets to where the next instruction goes without writing the register. */
  ghost predicate Way(g: Gen, lo: nat, r: nat) {
    g.insert < |g.code.blocks| && Arrives(g.code, lo, g.insert, r) && Avoids(InsertBlock(g), r)
  }

  /** Some path uses a pointer that no instruction on it has written. */
  ghost predicate Offends(c: Code, lo: nat) {
    exists path, k: nat, r: nat :: OffendsBy(c, lo, path, k, r)
  }

  predicate OffendsBy(c: Code, lo: nat, path: seq<nat>, k: nat, r: nat) {
    && Route(c, lo, path)
    && var before, code := Trace(c, path[..|path| - 1]), c.blocks[path[|path| - 1]].code;
    && k < |code| && Allocated(r) in Uses(code[k]) && Avoids(before + code[..k], r)
  }

  lemma OffenceIsUse(c: Code, lo: nat)
    requires Offends(c, lo)
    ensures exists path :: Route(c, lo, path) && !UsesAfterDefs(Trace(c, path))
  {
    var path, k: nat, r: nat :| OffendsBy(c, lo, path, k, r);
    var before, code := Trace(c, path[..|path| - 1]), c.blocks[path[|path| - 1]].code;
    var all, n := Trace(c, path), |before| + k;
    assert all == before + code && all[..n] == before + code[..k] && all[n] == code[k];
    assert !Happened(all[..n], Allocated(r));
    assert !UsesAfterDefs(all);
  }

  // ----- code that grows -----

  /** Code is added to blocks without a terminator only. */
  ghost predicate Sealed(c: Code, d: Code, lo: nat) {
    && |c.blocks| <= |d.blocks|
    && forall l :: lo <= l < |c.blocks| ==>
         c.blocks[l].code <= d.blocks[l].code && (Terminated(c.blocks[l].code) ==> d.blocks[l].code == c.blocks[l].code)
  }

  lemma SealedBy(g: Gen, h: Gen, lo: nat)
    requires Extends(g.code, h.code) && Tidy(h, lo)
    ensures Sealed(g.code, h.code, lo)
  {
    forall l | lo <= l < |g.code.blocks| && Terminated(g.code.blocks[l].code)
      ensures h.code.blocks[l].code == g.code.blocks[l].code
    {
      assert TidyInstr(h, lo, l, |g.code.blocks[l].code| - 1);
    }
  }

  lemma {:induction false} TraceStays(c: Code, d: Code, lo: nat, path: seq<nat>)
    requires Sealed(c, d, lo) && Path(c, path) && forall j :: 0 <= j < |path| ==> lo <= path[j]
    requires path != []
    ensures Path(d, path) && Trace(d, path[..|path| - 1]) == Trace(c, path[..|path| - 1])
    decreases path
  {
    var n := |path| - 1;
    if n > 0 {
      var before := path[..n];
      TraceStays(c, d, lo, before);
      assert before[..n - 1] == path[..n - 1];
      assert path[n] in Successors(c, path[n - 1]);
    }
  }

  lemma ArrivesStays(c: Code, d: Code, lo: nat, l: nat, r: nat)
    requires Sealed(c, d, lo) && Arrives(c, lo, l, r)
    ensures Arrives(d, lo, l, r)
  {
    var path :| ArrivesBy(c, lo, l, r, path);
    TraceStays(c, d, lo, path);
    assert ArrivesBy(d, lo, l, r, path);
  }

  lemma OffendsStays(c: Code, d: Code, lo: nat)
    requires Sealed(c, d, lo) && Offends(c, lo)
    ensures Offends(d, lo)
  {
    var path, k: nat, r: nat :| OffendsBy(c, lo, path, k, r);
    TraceStays(c, d, lo, path);
    var l := path[|path| - 1];
    assert c.blocks[l].code <= d.blocks[l].code;
    assert c.blocks[l].code[..k] == d.blocks[l].code[..k];
    assert OffendsBy(d, lo, path, k, r);
  }

  lemma OffendsLater(g: Gen, h: Gen, lo: nat)
    requires Extends(g.code, h.code) && Tidy(h, lo) && Offends(g.code, lo)
    ensures Offends(h.code, lo)
  {
    hide Tidy, Extends, Offends;
    SealedBy(g, h, lo);
    OffendsStays(g.code, h.code, lo);
  }

  lemma ArrivesLater(g: Gen, h: Gen, lo: nat, l: nat, r: nat)
    requires Extends(g.code, h.code) && Tidy(h, lo) && Arrives(g.code, lo, l, r)
    ensures Arrives(h.code, lo, l, r)
  {
    hide Tidy, Extends, Arrives;
    SealedBy(g, h, lo);
    ArrivesStays(g.code, h.code, lo, l, r);
  }

  /** Along an edge. */
  lemma ArrivesNext(c: Code, lo: nat, l: nat, t: nat, r: nat)
    requires Arrives(c, lo, l, r) && l < |c.blocks| && Avoids(c.blocks[l].code, r)
    requires t in Successors(c, l) && lo <= t < |c.blocks|
    ensures Arrives(c, lo, t, r)
  {
    var path :| ArrivesBy(c, lo, l, r, path);
    var longer := path + [t];
    assert longer[..|longer| - 1] == path;
    assert ArrivesBy(c, lo, t, r, longer);
  }

  // ----- the builder's steps -----

  lemma EmitSeals(g: Gen, i: Instr, lo: nat)
    requires Open(g)
    ensures Sealed(g.code, Emit(g, i).code, lo)
  {
  }

  lemma WayEmit(g: Gen, i: Instr, lo: nat, r: nat)
    requires Way(g, lo, r) && Open(g) && !Writes(i, r)
    ensures Way(Emit(g, i), lo, r)
  {
    hide Arrives;
    EmitSeals(g, i, lo);
    ArrivesStays(g.code, Emit(g, i).code, lo, g.insert, r);
  }

  /** The pointer is not written on the way to this use of it. */
  lemma OffenceHere(g: Gen, i: Instr, lo: nat, r: nat)
    requires Way(g, lo, r) && Open(g) && Allocated(r) in Uses(i)
    ensures Offends(Emit(g, i).code, lo)
  {
    hide Uses;
    var path :| ArrivesBy(g.code, lo, g.insert, r, path);
    EmitSeals(g, i, lo);
    TraceStays(g.code, Emit(g, i).code, lo, path);
    var code := g.code.blocks[g.insert].code;
    assert (code + [i])[..|code|] == code;
    assert OffendsBy(Emit(g, i).code, lo, path, |code|, r);
  }

  lemma WayReg(g: Gen, t: LType, lo: nat, r: nat)
    requires Way(g, lo, r)
    ensures Way(g.(code := g.code.(regs := g.code.regs + [t])), lo, r)
  {
    ArrivesStays(g.code, g.code.(regs := g.code.regs + [t]), lo, g.insert, r);
  }

  /** The register is none of those written from `g` to `h`. */
  predicate Other(g: Gen, h: Gen, r: nat) { r < NextReg(g) || NextReg(h) <= r }

  lemma WayDef(g: Gen, t: LType, i: Instr, lo: nat, r: nat)
    requires Way(g, lo, r) && Open(g) && Other(g, EmitDef(g, t, i), r) && Writes(i, NextReg(g))
    ensures Way(EmitDef(g, t, i), lo, r)
  {
    hide Way;
    WayReg(g, t, lo, r);
    WayEmit(g.(code := g.code.(regs := g.code.regs + [t])), i, lo, r);
  }

  lemma ArrivesCreate(g: Gen, parent: Option<nat>, lo: nat, l: nat, r: nat)
    requires Arrives(g.code, lo, l, r)
    ensures Arrives(CreateBlock(g, parent).code, lo, l, r)
  {
    ArrivesStays(g.code, CreateBlock(g, parent).code, lo, l, r);
  }

  lemma WayCreate(g: Gen, parent: Option<nat>, lo: nat, r: nat)
    requires Way(g, lo, r)
    ensures Way(CreateBlock(g, parent), lo, r)
  {
    hide Arrives;
    ArrivesCreate(g, parent, lo, g.insert, r);
  }

  /** A jump out of the insert block. */
  lemma ArrivesJump(g: Gen, i: Instr, t: nat, lo: nat, r: nat)
    requires Way(g, lo, r) && Open(g) && i.IsTerminator() && t in i.Targets() && lo <= t < |g.code.blocks|
    ensures Arrives(Emit(g, i).code, lo, t, r)
  {
    hide Arrives;
    WayEmit(g, i, lo, r);
    ArrivesNext(Emit(g, i).code, lo, g.insert, t, r);
  }

  /** Into an empty block. */
  lemma WayEnter(g: Gen, l: nat, lo: nat, r: nat)
    requires l < |g.code.blocks| && g.code.blocks[l].code == [] && Arrives(g.code, lo, l, r)
    ensures Way(SetInsert(g, l), lo, r) && Way(SetInsert(Attach(g, l), l), lo, r)
  {
    ArrivesStays(g.code, Attach(g, l).code, lo, l, r);
  }

  // ----- expressions: a path past them -----

  lemma WayCast(g: Gen, op: Operand, to: LType, lo: nat, r: nat)
    requires Way(g, lo, r) && Ready(g, lo) && Other(g, LowerCast(g, op, to).g, r)
    ensures Way(LowerCast(g, op, to).g, lo, r) && Ready(LowerCast(g, op, to).g, lo)
    ensures NextReg(g) <= NextReg(LowerCast(g, op, to).g)
  {
    hide Way, Tidy;
    ShapeCast(g, op, to, lo);
    if OperandType(g, op) != to {
      WayDef(g, to, Op1(NextReg(g), CastTo(to), op), lo, r);
    }
  }

  lemma WayStrict(g: Gen, isFloat: bool, op: BinaryOp, a: Operand, b: Operand, lo: nat, r: nat)
    requires Way(g, lo, r) && Ready(g, lo) && (op.IsArithmetic() || op.IsRelation())
    requires Other(g, LowerStrict(g, isFloat, op, a, b).g, r)
    ensures Way(LowerStrict(g, isFloat, op, a, b).g, lo, r)
  {
    hide Way, Ready, LowerCast;
    var l1 := if isFloat then LowerCast(g, a, F32T) else Lowered(g, Some(a));
    var r1 := if isFloat then LowerCast(l1.g, b, F32T) else Lowered(l1.g, Some(b));
    var i := Op2(NextReg(r1.g), SelectOp2(isFloat, op), l1.operand.value, r1.operand.value);
    DefGrows(r1.g, ResultType(isFloat, op), i);
    if isFloat {
      CastGrows(g, a, F32T);
      CastGrows(l1.g, b, F32T);
      WayCast(g, a, F32T, lo, r);
      WayCast(l1.g, b, F32T, lo, r);
    }
    ReadyIsOpen(r1.g, lo);
    WayDef(r1.g, ResultType(isFloat, op), i, lo, r);
  }

  lemma DefGrows(g: Gen, t: LType, i: Instr)
    ensures NextReg(EmitDef(g, t, i)) == NextReg(g) + 1
  {
  }

  lemma CastGrows(g: Gen, op: Operand, to: LType)
    ensures NextReg(g) <= NextReg(LowerCast(g, op, to).g)
  {
  }

  lemma WayMonadic(g: Gen, op: UnaryOp, t: TType, v: Operand, lo: nat, r: nat)
    requires Way(g, lo, r) && Ready(g, lo) && !op.Pos? && Other(g, LowerMonadic(g, op, t, v).g, r)
    requires LowerMonadic(g, op, t, v).g.ok
    ensures Way(LowerMonadic(g, op, t, v).g, lo, r)
  {
    hide Way, Tidy;
    var n := NextReg(g);
    if op.Not? {
      WayDef(g, I1, Op1(n, NotI, v), lo, r);
    } else if t == FLOAT {
      WayDef(g, F32T, Op1(n, NegF, v), lo, r);
    } else if t == INTEGER {
      WayDef(g, I32T, Op1(n, NegI, v), lo, r);
    }
  }

  /** From the left side of `&&` or `||` paths lead both into the right side and around it. */
  lemma WaysOfLogical(g: Gen, op: BinaryOp, v: Operand, lo: nat, r: nat)
    requires Way(g, lo, r) && Ready(g, lo) && Other(g, StartShortCircuit(g, op, v), r)
    ensures var h := StartShortCircuit(g, op, v);
      Way(h, lo, r) && Arrives(h.code, lo, NextLabel(g) + 1, r)
  {
    hide Way, Arrives, Settled;
    var slot, rhs, merge := NextReg(g), NextLabel(g), NextLabel(g) + 1;
    ShapeSaveLeft(g, v, lo);
    WayDef(g, PtrTo(I1), Alloca(slot, I1), lo, r);
    var g1 := EmitDef(g, PtrTo(I1), Alloca(slot, I1));
    WayEmit(g1, Store(v, slot), lo, r);
    var g2 := Emit(g1, Store(v, slot));
    WayCreate(g2, Some(g.cur), lo, r);
    WayCreate(CreateBlock(g2, Some(g.cur)), None, lo, r);
    var g3 := CreateBlock(CreateBlock(g2, Some(g.cur)), None);
    var i := if op.And? then CondBr(v, rhs, merge) else CondBr(v, merge, rhs);
    ArrivesJump(g3, i, rhs, lo, r);
    ArrivesJump(g3, i, merge, lo, r);
    WayEnter(Emit(g3, i), rhs, lo, r);
  }

  lemma WayEndShortCircuit(g: Gen, slot: nat, merge: nat, v: Operand, lo: nat, r: nat)
    requires Ready(g, lo) && merge < |g.code.blocks| && merge != g.insert && g.code.blocks[merge].code == []
    requires Arrives(g.code, lo, merge, r) && Other(g, EndShortCircuit(g, slot, merge, v).g, r)
    ensures Way(EndShortCircuit(g, slot, merge, v).g, lo, r)
  {
    hide Way, Arrives, Settled, Tidy;
    var g1 := Emit(g, Store(v, slot));
    var g2 := Emit(g1, Br(merge));
    EmitSeals(g, Store(v, slot), lo);
    ArrivesStays(g.code, g1.code, lo, merge, r);
    EmitSeals(g1, Br(merge), lo);
    ArrivesStays(g1.code, g2.code, lo, merge, r);
    WayEnter(g2, merge, lo, r);
    var g3 := SetInsert(Attach(g2, merge), merge);
    WayDef(g3, I1, Load(NextReg(g3), I1, slot), lo, r);
  }

  lemma {:induction false} PassExpr(g: Gen, e: Expr, lo: nat, r: nat)
    requires Ready(g, lo) && Way(g, lo, r) && LowerExpr(g, e).g.ok && Other(g, LowerExpr(g, e).g, r)
    ensures Way(LowerExpr(g, e).g, lo, r)
    decreases e
  {
    hide Way, Tidy;
    match e
    case Var(x, t) =>
      if Lookup(g.scopes, x).Some? {
        WayDef(g, ToLType(t), Load(NextReg(g), ToLType(t), Lookup(g.scopes, x).value), lo, r);
      }
    case BoolLit(_) =>
    case IntLit(_) =>
    case FloatLit(_) =>
    case Binary(_, op, _, _) =>
      if op.And? || op.Or? {
        PassLogical(g, e, lo, r);
      } else {
        PassStrict(g, e, lo, r);
      }
    case Unary(op, sub) =>
      ShapeExpr(g, sub, lo);
      var r1 := LowerExpr(g, sub);
      UnaryGrows(g, e, lo);
      PassExpr(g, sub, lo, r);
      if !op.Pos? {
        WayMonadic(r1.g, op, sub.Type(), r1.operand.value, lo, r);
      }
    case Call(_, _, _) => PassCall(g, e, lo, r);
  }

  lemma {:induction false} PassStrict(g: Gen, e: Expr, lo: nat, r: nat)
    requires e.Binary? && !e.op.And? && !e.op.Or?
    requires Ready(g, lo) && Way(g, lo, r) && LowerExpr(g, e).g.ok && Other(g, LowerExpr(g, e).g, r)
    ensures Way(LowerExpr(g, e).g, lo, r)
    decreases e, 0
  {
    hide Way, Ready, LowerStrict, LowerExpr, Extends;
    StrictGrows(g, e, lo);
    var r1 := LowerExpr(g, e.lhs);
    var r2 := LowerExpr(r1.g, e.rhs);
    PassExpr(g, e.lhs, lo, r);
    PassExpr(r1.g, e.rhs, lo, r);
    WayStrict(r2.g, IsFloatOp(e.lhs, e.rhs), e.op, r1.operand.value, r2.operand.value, lo, r);
  }

  lemma {:induction false} PassLogical(g: Gen, e: Expr, lo: nat, r: nat)
    requires e.Binary? && (e.op.And? || e.op.Or?)
    requires Ready(g, lo) && Way(g, lo, r) && LowerExpr(g, e).g.ok && Other(g, LowerExpr(g, e).g, r)
    ensures Way(LowerExpr(g, e).g, lo, r)
    decreases e, 0
  {
    hide Way, Arrives, LowerExpr, StartShortCircuit, EndShortCircuit, Extends, Tidy;
    LogicalGrows(g, e, lo);
    var r1 := LowerExpr(g, e.lhs);
    var g2 := StartShortCircuit(r1.g, e.op, r1.operand.value);
    var r3 := LowerExpr(g2, e.rhs);
    PassExpr(g, e.lhs, lo, r);
    WaysOfLogical(r1.g, e.op, r1.operand.value, lo, r);
    ArrivesLater(g2, r3.g, lo, NextLabel(r1.g) + 1, r);
    WayEndShortCircuit(r3.g, NextReg(r1.g), NextLabel(r1.g) + 1, r3.operand.value, lo, r);
  }

  lemma {:induction false} PassCall(g: Gen, e: Expr, lo: nat, r: nat)
    requires e.Call?
    requires Ready(g, lo) && Way(g, lo, r) && LowerExpr(g, e).g.ok && Other(g, LowerExpr(g, e).g, r)
    ensures Way(LowerExpr(g, e).g, lo, r)
    decreases e, 0
  {
    hide Way, LowerExpr, Tidy, Extends;
    CallGrows(g, e, lo);
    var fn := g.code.fns[g.funcs[e.callee]];
    var a := LowerArgs(g, e.args, fn.params);
    PassArgs(g, e.args, fn.params, lo, r);
    WayDef(a.g, fn.ret, CallFn(NextReg(a.g), g.funcs[e.callee], a.operands), lo, r);
  }

  lemma {:induction false} PassArgs(g: Gen, args: seq<Expr>, params: seq<LType>, lo: nat, r: nat)
    requires |args| == |params| && Ready(g, lo) && Way(g, lo, r)
    requires LowerArgs(g, args, params).g.ok && Other(g, LowerArgs(g, args, params).g, r)
    ensures Way(LowerArgs(g, args, params).g, lo, r)
    decreases args
  {
    hide Way, Ready, LowerExpr, LowerCast, Extends;
    if args != [] {
      ArgsGrow(g, args, params, lo);
      var r1 := LowerExpr(g, args[0]);
      var r2 := LowerCast(r1.g, r1.operand.value, params[0]);
      PassExpr(g, args[0], lo, r);
      WayCast(r1.g, r1.operand.value, params[0], lo, r);
      PassArgs(r2.g, args[1..], params[1..], lo, r);
    }
  }

  // ----- expressions: a use of a name -----

  /** The name's cell is used on a path that has not allocated it. */
  lemma {:induction false} BadExpr(g: Gen, e: Expr, x: string, lo: nat, r: nat)
    requires Ready(g, lo) && Way(g, lo, r) && LowerExpr(g, e).g.ok && r < NextReg(g)
    requires x in NamesIn(e) && Lookup(g.scopes, x) == Some(r)
    ensures Offends(LowerExpr(g, e).g.code, lo)
    decreases e
  {
    hide Way, Tidy, Offends;
    match e
    case Var(_, t) =>
      WayReg(g, ToLType(t), lo, r);
      OffenceHere(g.(code := g.code.(regs := g.code.regs + [ToLType(t)])), Load(NextReg(g), ToLType(t), r), lo, r);
    case Binary(_, op, _, _) =>
      if op.And? || op.Or? {
        BadLogical(g, e, x, lo, r);
      } else {
        BadStrict(g, e, x, lo, r);
      }
    case Unary(op, sub) =>
      UnaryGrows(g, e, lo);
      BadExpr(g, sub, x, lo, r);
      OffendsLater(LowerExpr(g, sub).g, LowerExpr(g, e).g, lo);
    case Call(_, args, _) =>
      CallGrows(g, e, lo);
      var fn := g.code.fns[g.funcs[e.callee]];
      BadArgs(g, args, fn.params, x, lo, r);
      OffendsLater(LowerArgs(g, args, fn.params).g, LowerExpr(g, e).g, lo);
    case _ =>
  }

  lemma {:induction false} BadStrict(g: Gen, e: Expr, x: string, lo: nat, r: nat)
    requires e.Binary? && !e.op.And? && !e.op.Or?
    requires Ready(g, lo) && Way(g, lo, r) && LowerExpr(g, e).g.ok && r < NextReg(g)
    requires x in NamesIn(e) && Lookup(g.scopes, x) == Some(r)
    ensures Offends(LowerExpr(g, e).g.code, lo)
    decreases e, 0
  {
    hide Way, Ready, Offends, LowerExpr, Extends, LowerStrict, Tidy;
    StrictGrows(g, e, lo);
    var r1 := LowerExpr(g, e.lhs);
    if x in NamesIn(e.lhs) {
      BadExpr(g, e.lhs, x, lo, r);
      OffendsLater(r1.g, LowerExpr(g, e).g, lo);
    } else {
      PassExpr(g, e.lhs, lo, r);
      BadExpr(r1.g, e.rhs, x, lo, r);
      OffendsLater(LowerExpr(r1.g, e.rhs).g, LowerExpr(g, e).g, lo);
    }
  }

  lemma {:induction false} BadLogical(g: Gen, e: Expr, x: string, lo: nat, r: nat)
    requires e.Binary? && (e.op.And? || e.op.Or?)
    requires Ready(g, lo) && Way(g, lo, r) && LowerExpr(g, e).g.ok && r < NextReg(g)
    requires x in NamesIn(e) && Lookup(g.scopes, x) == Some(r)
    ensures Offends(LowerExpr(g, e).g.code, lo)
    decreases e, 0
  {
    hide Way, Ready, Offends, LowerExpr, Extends, StartShortCircuit, EndShortCircuit, Tidy;
    LogicalGrows(g, e, lo);
    var r1 := LowerExpr(g, e.lhs);
    if x in NamesIn(e.lhs) {
      BadExpr(g, e.lhs, x, lo, r);
      OffendsLater(r1.g, LowerExpr(g, e).g, lo);
    } else {
      PassExpr(g, e.lhs, lo, r);
      WaysOfLogical(r1.g, e.op, r1.operand.value, lo, r);
      var g2 := StartShortCircuit(r1.g, e.op, r1.operand.value);
      BadExpr(g2, e.rhs, x, lo, r);
      OffendsLater(LowerExpr(g2, e.rhs).g, LowerExpr(g, e).g, lo);
    }
  }

  lemma {:induction false} BadArgs(g: Gen, args: seq<Expr>, params: seq<LType>, x: string, lo: nat, r: nat)
    requires |args| == |params| && Ready(g, lo) && Way(g, lo, r) && LowerArgs(g, args, params).g.ok && r < NextReg(g)
    requires x in NamesInAll(args) && Lookup(g.scopes, x) == Some(r)
    ensures Offends(LowerArgs(g, args, params).g.code, lo)
    decreases args
  {
    hide Way, Ready, Offends, LowerExpr, LowerCast, Extends, Tidy;
    ArgsGrow(g, args, params, lo);
    var r1 := LowerExpr(g, args[0]);
    if x in NamesIn(args[0]) {
      BadExpr(g, args[0], x, lo, r);
      OffendsLater(r1.g, LowerArgs(g, args, params).g, lo);
    } else {
      var r2 := LowerCast(r1.g, r1.operand.value, params[0]);
      PassExpr(g, args[0], lo, r);
      WayCast(r1.g, r1.operand.value, params[0], lo, r);
      BadArgs(r2.g, args[1..], params[1..], x, lo, r);
    }
  }

  // ----- statements -----

  /** Some path gets here, and writes no register that is not there yet. */
  ghost predicate Clear(g: Gen, lo: nat) {
    forall r: nat :: NextReg(g) <= r ==> Way(g, lo, r)
  }

  ghost predicate VagueAt(g: Gen, lo: nat, x: string) {
    Lookup(g.scopes, x).Some? && Way(g, lo, Lookup(g.scopes, x).value)
  }

  /** For every bound name that is not sure some path gets here without its declaration. */
  ghost predicate Vague(g: Gen, lo: nat, bound: set<string>, sure: set<string>) {
    forall x :: x in bound && x !in sure ==> VagueAt(g, lo, x)
  }

  /** The generator at a point that some path reaches, with these names bound. */
  ghost predicate AtPoint(g: Gen, lo: nat, bound: set<string>) {
    && Ready(g, lo) && Resolves(g.scopes, bound) && g.scopes != [] && Clear(g, lo)
    && forall x :: x in bound ==> Lookup(g.scopes, x).Some? && Lookup(g.scopes, x).value < NextReg(g)
  }

  /** Where control can get past, it gets there; and the rule on trees is kept, or some path offends. */
  ghost predicate Visited(h: Gen, lo: nat, falls: bool, assured: bool, bound: set<string>, sure: set<string>) {
    && (falls ==> Clear(h, lo))
    && if assured then falls ==> Vague(h, lo, bound, sure) else Offends(h.code, lo)
  }

  lemma {:induction false} NamesResolve(g: Gen, e: Expr, bound: set<string>, lo: nat)
    requires Ready(g, lo) && Resolves(g.scopes, bound) && LowerExpr(g, e).g.ok
    ensures NamesIn(e) <= bound
    decreases e
  {
    hide Ready, Extends, Tidy, Terminated;
    match e
    case Var(_, _) =>
    case Binary(_, op, l, r) =>
      if op.And? || op.Or? {
        LogicalGrows(g, e, lo);
        var r1 := LowerExpr(g, l);
        NamesResolve(g, l, bound, lo);
        NamesResolve(StartShortCircuit(r1.g, op, r1.operand.value), r, bound, lo);
      } else {
        StrictGrows(g, e, lo);
        NamesResolve(g, l, bound, lo);
        StrictScopes(g, l, lo);
        NamesResolve(LowerExpr(g, l).g, r, bound, lo);
      }
    case Unary(_, sub) =>
      UnaryGrows(g, e, lo);
      NamesResolve(g, sub, bound, lo);
    case Call(_, args, _) =>
      CallGrows(g, e, lo);
      NamesResolveAll(g, args, g.code.fns[g.funcs[e.callee]].params, bound, lo);
    case _ =>
  }

  lemma {:induction false} NamesResolveAll(g: Gen, args: seq<Expr>, params: seq<LType>, bound: set<string>, lo: nat)
    requires |args| == |params| && Ready(g, lo) && Resolves(g.scopes, bound) && LowerArgs(g, args, params).g.ok
    ensures NamesInAll(args) <= bound
    decreases args
  {
    hide Ready, Extends, Tidy, LowerCast, LowerExpr, Resolves;
    if args != [] {
      ArgsGrow(g, args, params, lo);
      var r1 := LowerExpr(g, args[0]);
      NamesResolve(g, args[0], bound, lo);
      NamesResolveAll(LowerCast(r1.g, r1.operand.value, params[0]).g, args[1..], params[1..], bound, lo);
    }
  }

  /** What an expression's visit leaves. */
  ghost predicate Evaluated(g: Gen, r: Lowered, lo: nat) {
    && r.operand.Some? && r.g.ok && Ready(r.g, lo) && r.g.scopes == g.scopes && NextReg(g) <= NextReg(r.g)
    && r.g.cur == g.cur && r.g.code.fns == g.code.fns
  }

  lemma ExprEvaluated(g: Gen, e: Expr, lo: nat)
    requires Ready(g, lo) && LowerExpr(g, e).g.ok
    ensures Evaluated(g, LowerExpr(g, e), lo)
  {
    ShapeExpr(g, e, lo);
  }

  /** Paths lead past the expression; and a name in it that is not sure makes one of them offend. */
  lemma PassOperand(g: Gen, e: Expr, bound: set<string>, sure: set<string>, lo: nat)
    requires AtPoint(g, lo, bound) && Vague(g, lo, bound, sure) && LowerExpr(g, e).g.ok
    ensures var r := LowerExpr(g, e);
      Evaluated(g, r, lo) && AtPoint(r.g, lo, bound) && Vague(r.g, lo, bound, sure)
    ensures !(NamesIn(e) <= sure) ==> Offends(LowerExpr(g, e).g.code, lo)
  {
    hide Way, Offends, Ready, LowerExpr, Resolves;
    var h := LowerExpr(g, e).g;
    ExprEvaluated(g, e, lo);
    forall r: nat | NextReg(h) <= r ensures Way(h, lo, r) {
      PassExpr(g, e, lo, r);
    }
    forall x | x in bound && x !in sure ensures VagueAt(h, lo, x) {
      assert VagueAt(g, lo, x);
      PassExpr(g, e, lo, Lookup(g.scopes, x).value);
    }
    if !(NamesIn(e) <= sure) {
      NamesResolve(g, e, bound, lo);
      var x :| x in NamesIn(e) && x !in sure;
      assert VagueAt(g, lo, x);
      BadExpr(g, e, x, lo, Lookup(g.scopes, x).value);
    }
  }

  lemma WayConversion(g: Gen, v: Operand, from: TType, to: TType, lo: nat, r: nat)
    requires Way(g, lo, r) && Ready(g, lo) && Other(g, LowerConversion(g, v, from, to).g, r)
    ensures Way(LowerConversion(g, v, from, to).g, lo, r) && Ready(LowerConversion(g, v, from, to).g, lo)
  {
    hide Way, Ready, LowerCast;
    if from != to {
      WayCast(g, v, ToLType(to), lo, r);
    }
  }

  lemma WayAssign(g: Gen, x: string, t: TType, from: TType, v: Operand, lo: nat, r: nat)
    requires Way(g, lo, r) && Ready(g, lo) && Other(g, LowerAssign(g, x, t, from, v), r)
    ensures Way(LowerAssign(g, x, t, from, v), lo, r)
  {
    hide Way, LowerConversion, Tidy;
    match Lookup(g.scopes, x)
    case Some(slot) =>
      var c := LowerConversion(g, v, from, t);
      ConversionGrows(g, v, from, t, lo);
      WayConversion(g, v, from, t, lo, r);
      WayEmit(c.g, Store(c.operand.value, slot), lo, r);
    case None =>
      var slot, lt := NextReg(g), ToLType(t);
      var g1 := EmitDef(g, PtrTo(lt), Alloca(slot, lt));
      ShapeDef(g, PtrTo(lt), Alloca(slot, lt), lo);
      var c := LowerConversion(g1, v, from, t);
      ConversionGrows(g1, v, from, t, lo);
      WayDef(g, PtrTo(lt), Alloca(slot, lt), lo, r);
      WayConversion(g1, v, from, t, lo, r);
      var g2 := Emit(c.g, Store(c.operand.value, slot));
      WayEmit(c.g, Store(c.operand.value, slot), lo, r);
      WayRescoped(g2, Declare(g2.scopes, x, slot), lo, r);
  }

  lemma WayRescoped(g: Gen, scopes: seq<Scope>, lo: nat, r: nat)
    requires Way(g, lo, r)
    ensures Way(g.(scopes := scopes), lo, r)
  {
  }

  lemma ConversionGrows(g: Gen, v: Operand, from: TType, to: TType, lo: nat)
    requires Ready(g, lo)
    ensures var c := LowerConversion(g, v, from, to); NextReg(g) <= NextReg(c.g) && Ready(c.g, lo) && c.g.scopes == g.scopes
  {
    ShapeConversion(g, v, from, to, lo);
  }

  /** An assignment to a name that is bound but not sure stores to a cell some path has not allocated. */
  lemma BadAssign(g: Gen, x: string, t: TType, from: TType, v: Operand, lo: nat)
    requires Ready(g, lo) && VagueAt(g, lo, x) && Lookup(g.scopes, x).value < NextReg(g)
    ensures Offends(LowerAssign(g, x, t, from, v).code, lo)
  {
    hide Way, LowerConversion, Offends, Tidy;
    var slot := Lookup(g.scopes, x).value;
    var c := LowerConversion(g, v, from, t);
    ConversionGrows(g, v, from, t, lo);
    WayConversion(g, v, from, t, lo, slot);
    OffenceHere(c.g, Store(c.operand.value, slot), lo, slot);
  }

  lemma {:induction false} ReachStmt(g: Gen, s: Stmt, bound: set<string>, sure: set<string>, lo: nat)
    requires AtPoint(g, lo, bound) && Vague(g, lo, bound, sure) && sure <= bound && LowerStmt(g, s).ok
    requires g.cur < |g.code.fns|
    ensures Visited(LowerStmt(g, s), lo, Falls(s), Assured(s, bound, sure), BoundAfter(s, bound), SureAfter(s, bound, sure))
    decreases s
  {
    hide AtPoint, Vague, Clear, Offends;
    match s
    case Assign(_, _, _) => ReachAssign(g, s, bound, sure, lo);
    case Print(_) => ReachPrint(g, s, bound, sure, lo);
    case Return(_) => ReachReturn(g, s, bound, sure, lo);
    case CallStmt(_) => PointIsClear(g, lo, bound);
    case Block(_) => ReachBlock(g, s, bound, sure, lo);
    case If(_, _, _) => ReachIf(g, s, bound, sure, lo);
    case While(_, _) => ReachWhile(g, s, bound, sure, lo);
    case DoWhile(_, _) => ReachDoWhile(g, s, bound, sure, lo);
  }

  lemma PointIsClear(g: Gen, lo: nat, bound: set<string>)
    requires AtPoint(g, lo, bound)
    ensures Clear(g, lo) && Ready(g, lo) && Resolves(g.scopes, bound)
  {
  }

  lemma ReachAssign(g: Gen, s: Stmt, bound: set<string>, sure: set<string>, lo: nat)
    requires s.Assign? && AtPoint(g, lo, bound) && Vague(g, lo, bound, sure) && sure <= bound && LowerStmt(g, s).ok
    ensures Visited(LowerStmt(g, s), lo, true, Assured(s, bound, sure), bound + {s.name}, sure + {s.name})
  {
    hide Way, Offends, Ready, LowerExpr, LowerAssign, Resolves;
    OperandOk(g, s, lo);
    PassOperand(g, s.rhs, bound, sure, lo);
    var r := LowerExpr(g, s.rhs);
    var x, v, h := s.name, r.operand.value, LowerStmt(g, s);
    AssignGrows(r.g, x, s.varTy, s.rhs.Type(), v, lo);
    forall q: nat | NextReg(h) <= q ensures Way(h, lo, q) {
      WayAssign(r.g, x, s.varTy, s.rhs.Type(), v, lo, q);
    }
    if !(NamesIn(s.rhs) <= sure) {
      OffendsLater(r.g, h, lo);
    } else if x in bound && x !in sure {
      assert VagueAt(r.g, lo, x);
      BadAssign(r.g, x, s.varTy, s.rhs.Type(), v, lo);
    } else {
      forall y | y in bound + {x} && y !in sure + {x} ensures VagueAt(h, lo, y) {
        assert VagueAt(r.g, lo, y);
        WayAssign(r.g, x, s.varTy, s.rhs.Type(), v, lo, Lookup(r.g.scopes, y).value);
      }
    }
  }

  lemma OperandOk(g: Gen, s: Stmt, lo: nat)
    requires LowerStmt(g, s).ok && Ready(g, lo)
    ensures s.Assign? ==> LowerExpr(g, s.rhs).g.ok
    ensures s.Print? || s.Return? ==> LowerExpr(g, s.e).g.ok
  {
    if s.Assign? {
      ShapeExpr(g, s.rhs, lo);
    } else if s.Print? || s.Return? {
      ShapeExpr(g, s.e, lo);
    }
  }

  lemma AssignGrows(g: Gen, x: string, t: TType, from: TType, v: Operand, lo: nat)
    requires Ready(g, lo) && g.scopes != []
    ensures var h := LowerAssign(g, x, t, from, v);
      && Extends(g.code, h.code) && Tidy(h, lo) && NextReg(g) <= NextReg(h)
      && forall y :: y != x ==> Lookup(h.scopes, y) == Lookup(g.scopes, y)
  {
    ShapeAssign(g, x, t, from, v, lo);
    AssignScopes(g, x, t, from, v);
    LookupDeclared(g.scopes, x, NextReg(g));
  }

  lemma WayPrint(g: Gen, t: TType, v: Operand, lo: nat, r: nat)
    requires Way(g, lo, r) && Ready(g, lo) && Other(g, LowerPrint(g, t, v), r)
    ensures Way(LowerPrint(g, t, v), lo, r)
  {
    hide Way, Settled, Tidy;
    if t == FLOAT {
      ShapeDef(g, F64T, FPExt(NextReg(g), v), lo);
      WayDef(g, F64T, FPExt(NextReg(g), v), lo, r);
      WayEmit(EmitDef(g, F64T, FPExt(NextReg(g), v)), PrintF64(NextReg(g)), lo, r);
    } else if t == BOOL {
      ShapeDef(g, I32T, Op1(NextReg(g), ZExtI, v), lo);
      WayDef(g, I32T, Op1(NextReg(g), ZExtI, v), lo, r);
      WayEmit(EmitDef(g, I32T, Op1(NextReg(g), ZExtI, v)), PrintI32(Reg(NextReg(g))), lo, r);
    } else {
      WayEmit(g, PrintI32(v), lo, r);
    }
  }

  lemma PrintGrows(g: Gen, t: TType, v: Operand, lo: nat)
    requires Ready(g, lo)
    ensures var h := LowerPrint(g, t, v);
      Extends(g.code, h.code) && Tidy(h, lo) && NextReg(g) <= NextReg(h) && h.scopes == g.scopes
  {
    ShapePrint(g, t, v, lo);
  }

  lemma ReachPrint(g: Gen, s: Stmt, bound: set<string>, sure: set<string>, lo: nat)
    requires s.Print? && AtPoint(g, lo, bound) && Vague(g, lo, bound, sure) && LowerStmt(g, s).ok
    ensures Visited(LowerStmt(g, s), lo, true, Assured(s, bound, sure), bound, sure)
  {
    hide Way, Offends, Ready, LowerExpr, LowerPrint, Resolves;
    OperandOk(g, s, lo);
    PassOperand(g, s.e, bound, sure, lo);
    var r := LowerExpr(g, s.e);
    var t, v, h := s.e.Type(), r.operand.value, LowerStmt(g, s);
    PrintGrows(r.g, t, v, lo);
    forall q: nat | NextReg(h) <= q ensures Way(h, lo, q) {
      WayPrint(r.g, t, v, lo, q);
    }
    if !(NamesIn(s.e) <= sure) {
      OffendsLater(r.g, h, lo);
    } else {
      forall y | y in bound && y !in sure ensures VagueAt(h, lo, y) {
        assert VagueAt(r.g, lo, y);
        WayPrint(r.g, t, v, lo, Lookup(r.g.scopes, y).value);
      }
    }
  }

  lemma ReachReturn(g: Gen, s: Stmt, bound: set<string>, sure: set<string>, lo: nat)
    requires s.Return? && AtPoint(g, lo, bound) && Vague(g, lo, bound, sure) && LowerStmt(g, s).ok
    ensures Visited(LowerStmt(g, s), lo, false, Assured(s, bound, sure), bound, sure)
  {
    hide Way, Offends, Ready, LowerExpr, LowerReturn, Resolves;
    OperandOk(g, s, lo);
    PassOperand(g, s.e, bound, sure, lo);
    if !(NamesIn(s.e) <= sure) {
      var r := LowerExpr(g, s.e);
      ReturnGrows(r.g, r.operand.value, lo);
      OffendsLater(r.g, LowerStmt(g, s), lo);
    }
  }

  lemma ReturnGrows(g: Gen, v: Operand, lo: nat)
    requires Ready(g, lo)
    ensures Extends(g.code, LowerReturn(g, v).code) && Tidy(LowerReturn(g, v), lo)
  {
    ShapeReturn(g, v, lo);
  }

  // ----- jumps -----

  /** Every path to here goes on to there without writing anything. */
  ghost predicate Reaches(g: Gen, h: Gen, lo: nat) {
    forall r: nat :: Way(g, lo, r) ==> Way(h, lo, r)
  }

  lemma PointReached(g: Gen, h: Gen, bound: set<string>, after: set<string>, sure: set<string>, lo: nat)
    requires AtPoint(g, lo, bound) && Vague(g, lo, bound, sure) && Reaches(g, h, lo)
    requires Rebound(g, h, bound, after) && Ready(h, lo)
    ensures AtPoint(h, lo, after) && Vague(h, lo, after, sure)
  {
    hide Way, Ready;
    forall x | x in after && x !in sure ensures VagueAt(h, lo, x) {
      if x in bound {
        assert VagueAt(g, lo, x);
        assert Lookup(h.scopes, x) == Lookup(g.scopes, x);
      }
    }
    forall x | x in after ensures Lookup(h.scopes, x).Some? && Lookup(h.scopes, x).value < NextReg(h) {
      if x in bound {
        assert Lookup(h.scopes, x) == Lookup(g.scopes, x);
      }
    }
  }

  /** After a visit that control gets past. */
  lemma PointAfter(g: Gen, h: Gen, bound: set<string>, after: set<string>, lo: nat)
    requires AtPoint(g, lo, bound) && Rebound(g, h, bound, after) && Ready(h, lo) && Clear(h, lo)
    ensures AtPoint(h, lo, after) && Vague(h, lo, after, after)
  {
    hide Way, Ready;
    forall x | x in after ensures Lookup(h.scopes, x).Some? && Lookup(h.scopes, x).value < NextReg(h) {
      if x in bound {
        assert Lookup(h.scopes, x) == Lookup(g.scopes, x);
      }
    }
  }

  lemma AllSure(g: Gen, lo: nat, bound: set<string>)
    ensures Vague(g, lo, bound, bound)
  {
  }

  /** Of three new blocks, those jumped to. */
  lemma WayStart3(g: Gen, parent: Option<nat>, i: Instr, t: nat, lo: nat, r: nat)
    requires Way(g, lo, r) && Ready(g, lo) && i.IsTerminator() && t in i.Targets()
    requires NextLabel(g) <= t <= NextLabel(g) + 2
    ensures var h := Emit(CreateBlock(CreateBlock(CreateBlock(g, Some(g.cur)), parent), None), i);
      Arrives(h.code, lo, t, r)
  {
    hide Way, Arrives, Tidy;
    var g1 := CreateBlock(g, Some(g.cur));
    var g2 := CreateBlock(g1, parent);
    WayCreate(g, Some(g.cur), lo, r);
    WayCreate(g1, parent, lo, r);
    WayCreate(g2, None, lo, r);
    ArrivesJump(CreateBlock(g2, None), i, t, lo, r);
  }

  lemma WaysOfIf(g: Gen, c: Operand, lo: nat, r: nat)
    requires Way(g, lo, r) && Ready(g, lo)
    ensures var h := StartIf(g, c); Way(h, lo, r) && Arrives(h.code, lo, NextLabel(g) + 1, r)
  {
    hide Arrives, Tidy;
    var l := NextLabel(g);
    WayStart3(g, None, CondBr(c, l, l + 1), l, lo, r);
    WayStart3(g, None, CondBr(c, l, l + 1), l + 1, lo, r);
    WayEnter(Emit(CreateBlock(CreateBlock(CreateBlock(g, Some(g.cur)), None), None), CondBr(c, l, l + 1)), l, lo, r);
  }

  lemma WayOfWhile(g: Gen, lo: nat, r: nat)
    requires Way(g, lo, r) && Ready(g, lo)
    ensures Way(StartWhile(g), lo, r)
  {
    hide Arrives, Tidy;
    var l := NextLabel(g);
    WayStart3(g, Some(g.cur), Br(l), l, lo, r);
    WayEnter(Emit(CreateBlock(CreateBlock(CreateBlock(g, Some(g.cur)), Some(g.cur)), None), Br(l)), l, lo, r);
  }

  lemma WayOfDo(g: Gen, lo: nat, r: nat)
    requires Way(g, lo, r) && Ready(g, lo)
    ensures Way(StartDoWhile(g), lo, r)
  {
    hide Arrives, Tidy;
    var l, g1 := NextLabel(g), CreateBlock(g, Some(g.cur));
    WayCreate(g, Some(g.cur), lo, r);
    WayCreate(g1, None, lo, r);
    ArrivesJump(CreateBlock(g1, None), Br(l), l, lo, r);
    WayEnter(Emit(CreateBlock(g1, None), Br(l)), l, lo, r);
  }

  lemma WayBranch(g: Gen, target: nat, lo: nat, r: nat)
    requires Way(g, lo, r) && Open(g) && lo <= target < |g.code.blocks|
    ensures Arrives(BranchIfOpen(g, target).code, lo, target, r)
  {
    ArrivesJump(g, Br(target), target, lo, r);
  }

  lemma WayArrived(g: Gen, lo: nat, r: nat)
    requires g.insert < |g.code.blocks| && InsertBlock(g) == [] && Arrives(g.code, lo, g.insert, r)
    ensures Way(g, lo, r)
  {
  }

  // ----- blocks -----

  lemma {:induction false} ReachBlock(g: Gen, s: Stmt, bound: set<string>, sure: set<string>, lo: nat)
    requires s.Block? && AtPoint(g, lo, bound) && Vague(g, lo, bound, sure) && sure <= bound && LowerStmt(g, s).ok
    requires g.cur < |g.code.fns|
    ensures Visited(LowerStmt(g, s), lo, Falls(s), Assured(s, bound, sure), bound, sure)
    decreases s, 0
  {
    hide Way, Offends, Ready, LowerStmt, Resolves;
    var g0 := g.(scopes := g.scopes + [map[]]);
    var g1, h := LowerSeq(g0, s.stmts), LowerStmt(g, s);
    PushedReady(g, bound, lo);
    PushedPoint(g, bound, sure, lo);
    BlockIs(g, s);
    ReachSeq(g0, s.stmts, bound, sure, lo);
    ReboundSeq(g0, s.stmts, bound, lo);
    BlockEffect(g.scopes, g1.scopes, bound);
    if Falls(s) {
      forall r: nat | NextReg(h) <= r ensures Way(h, lo, r) {
        WayRescoped(g1, h.scopes, lo, r);
      }
    }
    if Assured(s, bound, sure) {
      if Falls(s) {
        VagueStaysAll(s.stmts, bound, sure);
        forall x | x in bound && x !in sure ensures VagueAt(h, lo, x) {
          assert VagueAt(g1, lo, x);
          assert Lookup(g1.scopes, x) == Lookup(g0.scopes, x);
          WayRescoped(g1, h.scopes, lo, Lookup(g.scopes, x).value);
        }
      }
    } else {
      assert h.code == g1.code;
    }
  }

  lemma PushedPoint(g: Gen, bound: set<string>, sure: set<string>, lo: nat)
    requires AtPoint(g, lo, bound) && Vague(g, lo, bound, sure)
    ensures var h := g.(scopes := g.scopes + [map[]]); AtPoint(h, lo, bound) && Vague(h, lo, bound, sure)
  {
    hide Way, Ready;
    var h := g.(scopes := g.scopes + [map[]]);
    PushedReady(g, bound, lo);
    forall r: nat | NextReg(h) <= r ensures Way(h, lo, r) {
      WayRescoped(g, h.scopes, lo, r);
    }
    forall x | x in bound && x !in sure ensures VagueAt(h, lo, x) {
      assert VagueAt(g, lo, x);
      WayRescoped(g, h.scopes, lo, Lookup(g.scopes, x).value);
    }
  }

  lemma BlockIs(g: Gen, s: Stmt)
    requires s.Block?
    ensures var g1 := LowerSeq(g.(scopes := g.scopes + [map[]]), s.stmts);
      LowerStmt(g, s) == g1.(scopes := Popped(g1.scopes))
  {
    hide LowerSeq;
  }

  lemma {:induction false} ReachSeq(g: Gen, ss: seq<Stmt>, bound: set<string>, sure: set<string>, lo: nat)
    requires AtPoint(g, lo, bound) && Vague(g, lo, bound, sure) && sure <= bound && LowerSeq(g, ss).ok
    requires g.cur < |g.code.fns|
    ensures Visited(LowerSeq(g, ss), lo, FallsAll(ss), AssuredAll(ss, bound, sure), BoundAfterAll(ss, bound), SureAfterAll(ss, bound, sure))
    decreases ss
  {
    hide AtPoint, Vague, Clear, Offends, Grows, Settled, Tidy, Rebound;
    PointIsClear(g, lo, bound);
    if ss != [] {
      var g1, b1, s1 := LowerStmt(g, ss[0]), BoundAfter(ss[0], bound), SureAfter(ss[0], bound, sure);
      SeqGoesOn(g, ss, lo);
      StillInside(g, g1, lo);
      NamesGrow(ss[0], bound, sure);
      ReboundStmt(g, ss[0], bound, lo);
      ReachStmt(g, ss[0], bound, sure, lo);
      SeqExtends(g, ss, lo);
      if Falls(ss[0]) {
        FallsOpen(g, ss[0], lo);
        ReadyIsOpen(g1, lo);
        PointAfter(g, g1, bound, b1, lo);
        if Assured(ss[0], bound, sure) {
          ReachSeq(g1, ss[1..], b1, s1, lo);
        } else {
          ReachSeq(g1, ss[1..], b1, b1, lo);
          OffendsLater(g1, LowerSeq(g, ss), lo);
        }
      } else if !Assured(ss[0], bound, sure) {
        OffendsLater(g1, LowerSeq(g, ss), lo);
      }
    }
  }

  lemma SeqExtends(g: Gen, ss: seq<Stmt>, lo: nat)
    requires ss != [] && Ready(g, lo) && LowerSeq(g, ss).ok
    ensures Extends(LowerStmt(g, ss[0]).code, LowerSeq(g, ss).code) && Tidy(LowerSeq(g, ss), lo)
  {
    hide Settled, Tidy;
    SeqGoesOn(g, ss, lo);
    ShapeSeq(g, ss, lo);
    var g1 := LowerStmt(g, ss[0]);
    if !Terminated(InsertBlock(g1)) {
      ShapeSeq(g1, ss[1..], lo);
    } else {
      GrowsRefl(g1);
    }
  }

  // ----- if -----

  /** How the states of an `if` extend each other. */
  lemma IfExtents(g: Gen, s: Stmt, st: IfStages, lo: nat)
    requires s.If? && StagesOfIf(g, s) == Some(st) && ThenShape(g, st, lo) && ElseShape(st, lo)
    ensures Extends(st.test.g.code, st.end.code) && Extends(st.thenEnd.code, st.end.code)
    ensures Extends(BranchIfOpen(st.thenEnd, st.l + 2).code, st.end.code)
    ensures Extends(st.elseEnd.code, st.end.code) && Extends(BranchIfOpen(st.elseEnd, st.l + 2).code, st.end.code)
    ensures Extends(st.thenStart.code, st.elseStart.code) && Tidy(st.elseStart, lo) && Tidy(st.end, lo)
  {
    IfGrowth(g, s, st, lo);
    hide Settled, Tidy, LowerStmt, LowerExpr, Terminated, BranchIfOpen, Extends, Waiting, StagesOfIf, ThenShape, ElseShape;
    var a, b := BranchIfOpen(st.thenEnd, st.l + 2), BranchIfOpen(st.elseEnd, st.l + 2);
    EnterExtends(a, st.l + 1);
    EnterExtends(b, st.l + 2);
    BranchExtends(st.thenEnd, st.l + 2);
    BranchExtends(st.elseEnd, st.l + 2);
    ExtendsTransitive(st.elseEnd.code, b.code, st.end.code);
    ExtendsTransitive(st.elseStart.code, st.elseEnd.code, st.end.code);
    ExtendsTransitive(a.code, st.elseStart.code, st.end.code);
    ExtendsTransitive(st.thenEnd.code, a.code, st.end.code);
    ExtendsTransitive(st.thenEnd.code, a.code, st.elseStart.code);
    ExtendsTransitive(st.thenStart.code, st.thenEnd.code, st.elseStart.code);
  }

  lemma IfGrowth(g: Gen, s: Stmt, st: IfStages, lo: nat)
    requires s.If? && StagesOfIf(g, s) == Some(st) && ThenShape(g, st, lo) && ElseShape(st, lo)
    ensures Extends(st.test.g.code, st.end.code) && Tidy(st.elseStart, lo) && Tidy(st.end, lo)
    ensures Extends(st.thenStart.code, st.thenEnd.code) && Extends(st.elseStart.code, st.elseEnd.code)
    ensures st.elseStart == SetInsert(Attach(BranchIfOpen(st.thenEnd, st.l + 2), st.l + 1), st.l + 1)
    ensures st.end == SetInsert(Attach(BranchIfOpen(st.elseEnd, st.l + 2), st.l + 2), st.l + 2)
  {
    hide Settled, Tidy, LowerStmt, LowerExpr, Terminated, BranchIfOpen, Extends, Waiting;
  }

  lemma EnterExtends(g: Gen, l: nat)
    ensures Extends(g.code, SetInsert(Attach(g, l), l).code)
  {
  }

  lemma BranchExtends(g: Gen, target: nat)
    ensures Extends(g.code, BranchIfOpen(g, target).code)
  {
  }

  /** What is at the borders of the stages. */
  lemma IfBorders(g: Gen, s: Stmt, st: IfStages, bound: set<string>, lo: nat)
    requires s.If? && Ready(g, lo) && Resolves(g.scopes, bound) && LowerStmt(g, s).ok && StagesOfIf(g, s) == Some(st)
    ensures ThenShape(g, st, lo) && ElseShape(st, lo) && st.test.g.ok && st.end == LowerStmt(g, s)
    ensures var b1, b2 := BoundAfter(s.thn, bound), BoundAfter(s, bound);
      && Rebound(st.test.g, st.thenStart, bound, bound) && Rebound(st.thenStart, st.thenEnd, bound, b1)
      && Rebound(st.test.g, st.elseStart, bound, b1)
      && Rebound(st.elseStart, st.elseEnd, b1, b2)
      && Rebound(st.thenEnd, st.end, b1, b2) && Rebound(st.elseEnd, st.end, b2, b2)
    ensures st.thenStart.cur == g.cur && st.thenStart.code.fns == g.code.fns
    ensures st.elseStart.cur == g.cur && st.elseStart.code.fns == g.code.fns
    ensures lo <= st.l && st.l + 2 < |st.thenEnd.code.blocks| && st.l + 2 < |st.elseEnd.code.blocks|
    ensures Ready(st.test.g, lo) && Ready(st.thenStart, lo) && Ready(st.elseStart, lo) && Ready(st.end, lo)
    ensures st.thenEnd.ok && st.elseEnd.ok && st.end.insert == st.l + 2
    ensures InsertBlock(st.elseStart) == [] && InsertBlock(st.end) == []
  {
    hide LowerStmt, LowerExpr, Resolves, Refines, Rebound, Settled, Tidy;
    ShapeOfThen(g, s, lo);
    ShapeOfElse(g, s, lo);
    var b1, b2 := BoundAfter(s.thn, bound), BoundAfter(s, bound);
    GrowsMore(g, st.test.g);
    GrowsMore(st.test.g, st.thenStart);
    SameScopes(st.test.g, st.thenStart, bound);
    ReboundStmt(st.thenStart, s.thn, bound, lo);
    ReboundParts(st.thenStart, st.thenEnd, bound, b1);
    SameScopes(st.thenEnd, st.elseStart, b1);
    ReboundThen(st.test.g, st.thenStart, st.thenEnd, bound, bound, b1);
    ReboundThen(st.test.g, st.thenEnd, st.elseStart, bound, b1, b1);
    if s.els.Some? {
      ReboundStmt(st.elseStart, s.els.value, b1, lo);
    } else {
      SameScopes(st.elseStart, st.elseEnd, b2);
    }
    ReboundParts(st.elseStart, st.elseEnd, b1, b2);
    SameScopes(st.elseEnd, st.end, b2);
    ReboundThen(st.thenEnd, st.elseStart, st.elseEnd, b1, b1, b2);
    ReboundThen(st.thenEnd, st.elseEnd, st.end, b1, b2, b2);
  }

  /** From the condition paths lead into both arms. */
  lemma IfReaches(g: Gen, s: Stmt, st: IfStages, lo: nat)
    requires s.If? && StagesOfIf(g, s) == Some(st) && ThenShape(g, st, lo) && ElseShape(st, lo)
    requires Extends(st.thenStart.code, st.elseStart.code) && Tidy(st.elseStart, lo) && InsertBlock(st.elseStart) == []
    ensures Reaches(st.test.g, st.thenStart, lo) && Reaches(st.test.g, st.elseStart, lo)
  {
    hide LowerStmt, LowerExpr, Way, Arrives, Settled, Tidy, Extends, StartIf;
    forall r: nat | Way(st.test.g, lo, r) ensures Way(st.thenStart, lo, r) && Way(st.elseStart, lo, r) {
      WaysOfIf(st.test.g, st.test.operand.value, lo, r);
      ArrivesLater(st.thenStart, st.elseStart, lo, st.l + 1, r);
      WayArrived(st.elseStart, lo, r);
    }
  }

  /** From the end of an arm that control gets past paths lead to the join. */
  lemma ArmArrives(start: Gen, arm: Gen, end: Gen, target: nat, before: set<string>, own: set<string>,
                   after: set<string>, sure: set<string>, lo: nat)
    requires AtPoint(start, lo, before) && Rebound(start, arm, before, own) && Ready(arm, lo) && Clear(arm, lo)
    requires lo <= target < |arm.code.blocks| && Extends(BranchIfOpen(arm, target).code, end.code)
    requires Ready(end, lo) && end.insert == target && InsertBlock(end) == [] && Rebound(arm, end, own, after)
    ensures Clear(end, lo)
    ensures Vague(arm, lo, own, sure) ==> Vague(end, lo, after, sure)
  {
    hide Way, Arrives, Vague, Clear, Rebound, BranchIfOpen, Extends, AtPoint, Tidy;
    PointAfter(start, arm, before, own, lo);
    forall r: nat | Way(arm, lo, r) ensures Way(end, lo, r) {
      WayBranch(arm, target, lo, r);
      BranchArrives(arm, target, end, lo, r);
      WayArrived(end, lo, r);
    }
    PointReached(arm, end, own, after, own, lo);
    PointIsClear(end, lo, after);
    if Vague(arm, lo, own, sure) {
      PointReached(arm, end, own, after, sure, lo);
    }
  }

  lemma BranchArrives(g: Gen, target: nat, h: Gen, lo: nat, r: nat)
    requires Extends(BranchIfOpen(g, target).code, h.code) && Tidy(h, lo)
    requires Arrives(BranchIfOpen(g, target).code, lo, target, r)
    ensures Arrives(h.code, lo, target, r)
  {
    hide Arrives, Extends, Tidy;
    ArrivesLater(BranchIfOpen(g, target), h, lo, target, r);
  }

  /** A name that is not sure behind the statement is not sure behind some arm that gets there. */
  lemma IfVague(h: Gen, s: Stmt, bound: set<string>, sure: set<string>, after: set<string>, lo: nat)
    requires s.If? && Falls(s)
    requires Falls(s.thn) ==> Vague(h, lo, after, SureAfter(s.thn, bound, sure))
    requires if s.els.None? then Vague(h, lo, after, sure)
             else Falls(s.els.value) ==> Vague(h, lo, after, SureAfter(s.els.value, BoundAfter(s.thn, bound), sure))
    ensures Vague(h, lo, after, SureAfter(s, bound, sure))
  {
    hide VagueAt;
  }

  lemma {:induction false} ReachIf(g: Gen, s: Stmt, bound: set<string>, sure: set<string>, lo: nat)
    requires s.If? && AtPoint(g, lo, bound) && Vague(g, lo, bound, sure) && sure <= bound && LowerStmt(g, s).ok
    requires g.cur < |g.code.fns|
    ensures Visited(LowerStmt(g, s), lo, Falls(s), Assured(s, bound, sure), BoundAfter(s, bound), SureAfter(s, bound, sure))
    decreases s, 1
  {
    hide AtPoint, Vague, Clear, Offends, LowerStmt, LowerExpr, Rebound, Extends, Ready, Tidy, Reaches,
      BoundAfter, SureAfter, BranchIfOpen;
    PointIsClear(g, lo, bound);
    IfSucceeds(g, s, lo);
    var st := StagesOfIf(g, s).value;
    IfBorders(g, s, st, bound, lo);
    IfExtents(g, s, st, lo);
    IfReaches(g, s, st, lo);
    PassOperand(g, s.cond, bound, sure, lo);
    if !(NamesIn(s.cond) <= sure) {
      OffendsLater(st.test.g, st.end, lo);
    }
    ReachThen(g, s, st, bound, sure, lo);
    ReachElse(g, s, st, bound, sure, lo);
    if Falls(s) && Assured(s, bound, sure) {
      IfVague(st.end, s, bound, sure, BoundAfter(s, bound), lo);
    }
  }

  /** The stages of an `if` whose condition has been passed. */
  ghost predicate IfPassed(g: Gen, s: Stmt, st: IfStages, bound: set<string>, sure: set<string>, lo: nat) {
    && s.If? && StagesOfIf(g, s) == Some(st) && Resolves(g.scopes, bound) && Ready(g, lo) && LowerStmt(g, s).ok
    && g.cur < |g.code.fns| && sure <= bound
    && AtPoint(st.test.g, lo, bound) && Vague(st.test.g, lo, bound, sure)
    && Reaches(st.test.g, st.thenStart, lo) && Reaches(st.test.g, st.elseStart, lo)
  }

  lemma {:induction false} ReachThen(g: Gen, s: Stmt, st: IfStages, bound: set<string>, sure: set<string>, lo: nat)
    requires IfPassed(g, s, st, bound, sure, lo)
    ensures !Assured(s.thn, bound, sure) ==> Offends(st.end.code, lo)
    ensures Falls(s.thn) ==> Clear(st.end, lo)
    ensures Falls(s.thn) && Assured(s.thn, bound, sure) ==>
      Vague(st.end, lo, BoundAfter(s, bound), SureAfter(s.thn, bound, sure))
    decreases s, 0
  {
    hide AtPoint, Vague, Clear, Offends, LowerStmt, LowerExpr, Rebound, Extends, Ready, Tidy, Reaches,
      BoundAfter, SureAfter, BranchIfOpen, Falls, Assured;
    IfBorders(g, s, st, bound, lo);
    IfExtents(g, s, st, lo);
    PointReached(st.test.g, st.thenStart, bound, bound, sure, lo);
    ReachStmt(st.thenStart, s.thn, bound, sure, lo);
    if !Assured(s.thn, bound, sure) {
      OffendsLater(st.thenEnd, st.end, lo);
    }
    if Falls(s.thn) {
      FallsOpen(st.thenStart, s.thn, lo);
      ArmArrives(st.thenStart, st.thenEnd, st.end, st.l + 2, bound, BoundAfter(s.thn, bound), BoundAfter(s, bound),
        SureAfter(s.thn, bound, sure), lo);
    }
  }

  lemma {:induction false} ReachElse(g: Gen, s: Stmt, st: IfStages, bound: set<string>, sure: set<string>, lo: nat)
    requires IfPassed(g, s, st, bound, sure, lo)
    ensures var b1, b2 := BoundAfter(s.thn, bound), BoundAfter(s, bound);
      if s.els.None? then Clear(st.end, lo) && Vague(st.end, lo, b2, sure)
      else
        && (!Assured(s.els.value, b1, sure) ==> Offends(st.end.code, lo))
        && (Falls(s.els.value) ==> Clear(st.end, lo))
        && (Falls(s.els.value) && Assured(s.els.value, b1, sure) ==>
              Vague(st.end, lo, b2, SureAfter(s.els.value, b1, sure)))
    decreases s, 0
  {
    hide AtPoint, Vague, Clear, Offends, LowerStmt, LowerExpr, Rebound, Extends, Ready, Tidy, Reaches,
      BoundAfter, SureAfter, BranchIfOpen, Falls, Assured;
    IfBorders(g, s, st, bound, lo);
    IfExtents(g, s, st, lo);
    IfNames(s, bound, sure);
    var b1, b2 := BoundAfter(s.thn, bound), BoundAfter(s, bound);
    PointReached(st.test.g, st.elseStart, bound, b1, sure, lo);
    if s.els.Some? {
      var e := s.els.value;
      ReachStmt(st.elseStart, e, b1, sure, lo);
      if !Assured(e, b1, sure) {
        OffendsLater(st.elseEnd, st.end, lo);
      }
      if Falls(e) {
        FallsOpen(st.elseStart, e, lo);
        ArmArrives(st.elseStart, st.elseEnd, st.end, st.l + 2, b1, b2, b2, SureAfter(e, b1, sure), lo);
      }
    } else {
      PointIsClear(st.elseStart, lo, b1);
      ArmArrives(st.elseStart, st.elseEnd, st.end, st.l + 2, b1, b2, b2, sure, lo);
    }
  }

  // ----- loops -----

  lemma WhileBorders(g: Gen, s: Stmt, st: WhileStages, bound: set<string>, lo: nat)
    requires s.While? && Ready(g, lo) && Resolves(g.scopes, bound) && LowerStmt(g, s).ok && StagesOfWhile(g, s) == Some(st)
    ensures var b1 := BoundAfter(s.body, bound);
      && Rebound(g, st.loopStart, bound, bound) && Rebound(st.test.g, st.bodyStart, bound, bound)
      && Rebound(st.test.g, st.end, bound, b1)
    ensures Ready(st.loopStart, lo) && Ready(st.test.g, lo) && Ready(st.bodyStart, lo) && Ready(st.end, lo)
    ensures st.bodyStart.cur == g.cur && st.bodyStart.code.fns == g.code.fns && st.test.g.ok && st.bodyEnd.ok
    ensures InsertBlock(st.bodyStart) == [] && InsertBlock(st.end) == [] && st.end == LowerStmt(g, s)
    ensures st.end.insert == st.l + 2 && st.bodyStart.insert == st.l + 1
    ensures lo <= st.l && st.l + 2 < |st.test.g.code.blocks|
    ensures Extends(st.test.g.code, st.end.code) && Extends(st.bodyStart.code, st.end.code)
    ensures Extends(st.bodyEnd.code, st.end.code)
  {
    hide LowerStmt, LowerExpr, Resolves, Refines, Rebound, Settled, Tidy, StartWhile;
    ShapeOfLoop(g, s, lo);
    ShapeOfLoopEnd(g, s, lo);
    var b1 := BoundAfter(s.body, bound);
    SameScopes(g, st.loopStart, bound);
    SameScopes(st.test.g, st.bodyStart, bound);
    ReboundStmt(st.bodyStart, s.body, bound, lo);
    ReboundParts(st.bodyStart, st.bodyEnd, bound, b1);
    SameScopes(st.bodyEnd, st.end, b1);
    ReboundThen(st.test.g, st.bodyStart, st.bodyEnd, bound, bound, b1);
    ReboundThen(st.test.g, st.bodyEnd, st.end, bound, b1, b1);
    BranchExtends(st.bodyEnd, st.l);
    assert Extends(BranchIfOpen(st.bodyEnd, st.l).code, st.end.code);
    ExtendsTransitive(st.bodyEnd.code, BranchIfOpen(st.bodyEnd, st.l).code, st.end.code);
    ExtendsTransitive(st.bodyStart.code, st.bodyEnd.code, st.end.code);
    assert Extends(st.test.g.code, st.bodyStart.code);
    ExtendsTransitive(st.test.g.code, st.bodyStart.code, st.end.code);
  }

  /** From the test paths lead into the body and past the loop. */
  lemma WhileReaches(g: Gen, s: Stmt, st: WhileStages, lo: nat)
    requires s.While? && StagesOfWhile(g, s) == Some(st) && Ready(st.test.g, lo) && Ready(st.bodyStart, lo) && Ready(st.end, lo)
    requires lo <= st.l && st.l + 2 < |st.test.g.code.blocks| && Extends(st.bodyStart.code, st.end.code)
    requires InsertBlock(st.bodyStart) == [] && InsertBlock(st.end) == []
    requires st.end.insert == st.l + 2 && st.bodyStart.insert == st.l + 1
    ensures Reaches(st.test.g, st.bodyStart, lo) && Reaches(st.test.g, st.end, lo)
  {
    hide LowerStmt, LowerExpr, Way, Arrives, Settled, Tidy, Extends, StartWhile;
    var i := CondBr(st.test.operand.value, st.l + 1, st.l + 2);
    forall r: nat | Way(st.test.g, lo, r) ensures Way(st.bodyStart, lo, r) && Way(st.end, lo, r) {
      ArrivesJump(st.test.g, i, st.l + 1, lo, r);
      ArrivesJump(st.test.g, i, st.l + 2, lo, r);
      assert st.bodyStart.code == Emit(st.test.g, i).code;
      WayArrived(st.bodyStart, lo, r);
      ArrivesLater(st.bodyStart, st.end, lo, st.l + 2, r);
      WayArrived(st.end, lo, r);
    }
  }

  lemma {:induction false} ReachWhile(g: Gen, s: Stmt, bound: set<string>, sure: set<string>, lo: nat)
    requires s.While? && AtPoint(g, lo, bound) && Vague(g, lo, bound, sure) && sure <= bound && LowerStmt(g, s).ok
    requires g.cur < |g.code.fns|
    ensures Visited(LowerStmt(g, s), lo, true, Assured(s, bound, sure), BoundAfter(s, bound), sure)
    decreases s, 0
  {
    hide AtPoint, Vague, Clear, Offends, LowerStmt, LowerExpr, Rebound, Extends, Ready, Tidy, Reaches, StartWhile;
    PointIsClear(g, lo, bound);
    WhileSucceeds(g, s, lo);
    var st := StagesOfWhile(g, s).value;
    WhileBorders(g, s, st, bound, lo);
    WhileReaches(g, s, st, lo);
    LoopReached(g, lo);
    PointReached(g, st.loopStart, bound, bound, sure, lo);
    PassOperand(st.loopStart, s.cond, bound, sure, lo);
    PointReached(st.test.g, st.bodyStart, bound, bound, sure, lo);
    PointReached(st.test.g, st.end, bound, BoundAfter(s.body, bound), sure, lo);
    PointIsClear(st.end, lo, BoundAfter(s.body, bound));
    ReachStmt(st.bodyStart, s.body, bound, sure, lo);
    ReadyTidy(st.end, lo);
    if !(NamesIn(s.cond) <= sure) {
      OffendsLater(st.test.g, st.end, lo);
    } else if !Assured(s.body, bound, sure) {
      OffendsLater(st.bodyEnd, st.end, lo);
    }
  }

  lemma ReadyTidy(g: Gen, lo: nat)
    requires Ready(g, lo)
    ensures Tidy(g, lo)
  {
  }

  lemma LoopReached(g: Gen, lo: nat)
    requires Ready(g, lo)
    ensures Reaches(g, StartWhile(g), lo) && Reaches(g, StartDoWhile(g), lo)
  {
    hide Way, StartWhile, StartDoWhile, Ready;
    forall r: nat | Way(g, lo, r) ensures Way(StartWhile(g), lo, r) && Way(StartDoWhile(g), lo, r) {
      WayOfWhile(g, lo, r);
      WayOfDo(g, lo, r);
    }
  }

  lemma {:induction false} ReachDoWhile(g: Gen, s: Stmt, bound: set<string>, sure: set<string>, lo: nat)
    requires s.DoWhile? && AtPoint(g, lo, bound) && Vague(g, lo, bound, sure) && sure <= bound && LowerStmt(g, s).ok
    requires g.cur < |g.code.fns|
    ensures Visited(LowerStmt(g, s), lo, Falls(s), Assured(s, bound, sure), BoundAfter(s, bound), SureAfter(s, bound, sure))
    decreases s, 0
  {
    hide AtPoint, Vague, Clear, Offends, LowerExpr, Rebound, Extends, Ready, Tidy, Reaches, StartDoWhile;
    PointIsClear(g, lo, bound);
    var g0 := StartDoWhile(g);
    var g1, h := LowerStmt(g0, s.body), LowerStmt(g, s);
    var b1, s1 := BoundAfter(s.body, bound), SureAfter(s.body, bound, sure);
    DoBody(g, s, lo);
    DoExtends(g, s, lo);
    LoopReached(g, lo);
    DoScopes(g, bound, lo);
    PointReached(g, g0, bound, bound, sure, lo);
    ReachStmt(g0, s.body, bound, sure, lo);
    NamesGrow(s.body, bound, sure);
    if !Assured(s.body, bound, sure) {
      OffendsLater(g1, h, lo);
    }
    if Falls(s.body) {
      FallsOpen(g0, s.body, lo);
      ReadyIsOpen(g1, lo);
      ReboundStmt(g0, s.body, bound, lo);
      PointAfter(g0, g1, bound, b1, lo);
      DoPasses(g, s, g1, b1, b1, lo);
      if Assured(s.body, bound, sure) {
        DoPasses(g, s, g1, b1, s1, lo);
      }
    }
  }

  lemma DoScopes(g: Gen, bound: set<string>, lo: nat)
    requires Ready(g, lo) && Resolves(g.scopes, bound)
    ensures Rebound(g, StartDoWhile(g), bound, bound)
  {
    ShapeStartDoWhile(g, lo);
    SameScopes(g, StartDoWhile(g), bound);
  }

  lemma DoExtends(g: Gen, s: Stmt, lo: nat)
    requires s.DoWhile? && Ready(g, lo) && LowerStmt(g, s).ok
    ensures var g1, h := LowerStmt(StartDoWhile(g), s.body), LowerStmt(g, s);
      && Extends(g1.code, h.code) && Tidy(h, lo)
      && (!Terminated(InsertBlock(g1)) ==> Extends(LowerExpr(g1, s.cond).g.code, h.code))
  {
    hide Settled, Tidy, StartDoWhile, Extends, Terminated, LowerExpr;
    DoBody(g, s, lo);
    ShapeStmt(g, s, lo);
    var l, g1, h := NextLabel(g), LowerStmt(StartDoWhile(g), s.body), LowerStmt(g, s);
    if !Terminated(InsertBlock(g1)) {
      ShapeExpr(g1, s.cond, lo);
      var r := LowerExpr(g1, s.cond);
      AttachExtends(r.g, CondBr(r.operand.value, l, l + 1), l + 1);
      ExtendsTransitive(g1.code, r.g.code, h.code);
    } else {
      EnterExtends(g1, l + 1);
    }
  }

  lemma AttachExtends(g: Gen, i: Instr, l: nat)
    ensures Extends(g.code, SetInsert(Attach(Emit(g, i), l), l).code)
  {
  }

  /** Past the test of a loop whose body control gets past. */
  lemma DoPasses(g: Gen, s: Stmt, g1: Gen, bound: set<string>, sure: set<string>, lo: nat)
    requires s.DoWhile? && Ready(g, lo) && LowerStmt(g, s).ok && g1 == LowerStmt(StartDoWhile(g), s.body) && Ready(g1, lo)
    requires AtPoint(g1, lo, bound) && Vague(g1, lo, bound, sure)
    ensures Clear(LowerStmt(g, s), lo) && Vague(LowerStmt(g, s), lo, bound, sure)
    ensures !(NamesIn(s.cond) <= sure) ==> Offends(LowerStmt(g, s).code, lo)
  {
    hide AtPoint, Vague, Clear, Offends, LowerExpr, Extends, Settled, Tidy, Reaches, StartDoWhile, Resolves, Rebound, Terminated;
    DoBody(g, s, lo);
    DoExtends(g, s, lo);
    ReadyIsOpen(g1, lo);
    PassOperand(g1, s.cond, bound, sure, lo);
    var r, l, h := LowerExpr(g1, s.cond), NextLabel(g), LowerStmt(g, s);
    if !(NamesIn(s.cond) <= sure) {
      OffendsLater(r.g, h, lo);
    }
    PointIsClear(g1, lo, bound);
    TestBorders(g, s, g1, bound, lo);
    PointReached(r.g, h, bound, bound, sure, lo);
    PointIsClear(h, lo, bound);
  }

  lemma TestEnds(g: Gen, s: Stmt, g1: Gen, lo: nat)
    requires s.DoWhile? && Ready(g, lo) && LowerStmt(g, s).ok && g1 == LowerStmt(StartDoWhile(g), s.body) && Ready(g1, lo)
    ensures Ready(LowerStmt(g, s), lo) && LowerStmt(g, s).scopes == g1.scopes
  {
    hide Settled, Tidy, StartDoWhile, LowerExpr, Underway, StmtShape;
    ReadyIsOpen(g1, lo);
    DoSucceeds(g, s, lo);
    ShapeOfDo(g, s, lo);
  }

  lemma TestBorders(g: Gen, s: Stmt, g1: Gen, bound: set<string>, lo: nat)
    requires s.DoWhile? && Ready(g, lo) && LowerStmt(g, s).ok && g1 == LowerStmt(StartDoWhile(g), s.body) && Ready(g1, lo)
    requires Resolves(g1.scopes, bound)
    ensures var r, h := LowerExpr(g1, s.cond), LowerStmt(g, s);
      Ready(h, lo) && Rebound(r.g, h, bound, bound) && Reaches(r.g, h, lo)
  {
    hide Settled, Tidy, StartDoWhile, Way, Arrives, LowerExpr, Resolves, Underway, StmtShape, Extends;
    DoBody(g, s, lo);
    ReadyIsOpen(g1, lo);
    var r, l, h := LowerExpr(g1, s.cond), NextLabel(g), LowerStmt(g, s);
    ExprEvaluated(g1, s.cond, lo);
    TestEnds(g, s, g1, lo);
    SameScopes(r.g, h, bound);
    TestWaits(g1, s.cond, l + 1, lo);
    var i := CondBr(r.operand.value, l, l + 1);
    forall q: nat | Way(r.g, lo, q) ensures Way(h, lo, q) {
      ArrivesJump(r.g, i, l + 1, lo, q);
      WayEnter(Emit(r.g, i), l + 1, lo, q);
    }
  }

  /** The test's visit leaves a block it does not know alone. */
  lemma TestWaits(g: Gen, c: Expr, l: nat, lo: nat)
    requires Ready(g, lo) && l < |g.code.blocks| && l != g.insert && g.code.blocks[l].code == []
    ensures var h := LowerExpr(g, c).g; l < |h.code.blocks| && l != h.insert && h.code.blocks[l].code == []
  {
    ShapeExpr(g, c, lo);
  }

  // ----- functions -----

  lemma EntryIsPoint(g: Gen, d: FunctionDef)
    ensures AtPoint(StartFunction(g, d), NextLabel(g), {})
  {
    var h, lo := StartFunction(g, d), NextLabel(g);
    ShapeStartFunction(g, d);
    forall r: nat | NextReg(h) <= r ensures Way(h, lo, r) {
      assert ArrivesBy(h.code, lo, lo, r, [lo]);
    }
  }

  lemma ParamIsPoint(g: Gen, p: Param, i: nat, bound: set<string>, lo: nat)
    requires AtPoint(g, lo, bound)
    ensures AtPoint(LowerParam(g, p, i), lo, bound + {p.name})
  {
    hide Way, Settled, Tidy;
    var slot, t, h := NextReg(g), ToLType(p.ty), LowerParam(g, p, i);
    var g1 := EmitDef(g, PtrTo(t), Alloca(slot, t));
    var g2 := Emit(g1, Store(Arg(i), slot));
    ShapeDef(g, PtrTo(t), Alloca(slot, t), lo);
    ShapeParamCell(g, t, i, lo);
    RescopedReady(g2, h.scopes, lo);
    LookupDeclared(g.scopes, p.name, slot);
    forall r: nat | NextReg(h) <= r ensures Way(h, lo, r) {
      WayDef(g, PtrTo(t), Alloca(slot, t), lo, r);
      WayEmit(g1, Store(Arg(i), slot), lo, r);
      WayRescoped(g2, h.scopes, lo, r);
    }
  }

  lemma {:induction false} ParamsArePoints(g: Gen, ps: seq<Param>, lo: nat)
    requires AtPoint(g, lo, {})
    ensures AtPoint(LowerParams(g, ps), lo, ParamNames(ps))
    decreases ps
  {
    hide AtPoint, LowerParam;
    if ps == [] {
      assert ParamNames(ps) == {};
    } else {
      var n := |ps| - 1;
      ParamsArePoints(g, ps[..n], lo);
      ParamIsPoint(LowerParams(g, ps[..n]), ps[n], n, ParamNames(ps[..n]), lo);
      assert ParamNames(ps) == ParamNames(ps[..n]) + {ps[n].name};
    }
  }

  /** What the paths through a function's body do. */
  lemma BodyVisited(g: Gen, d: FunctionDef)
    requires LowerFunction(g, d).ok
    ensures !AssuredFunction(d) ==> Offends(LowerFunction(g, d).code, NextLabel(g))
    ensures Falls(d.body) ==> Clear(BodyEnd(g, d), NextLabel(g))
    ensures Sealed(BodyEnd(g, d).code, LowerFunction(g, d).code, NextLabel(g))
  {
    hide AtPoint, Vague, Clear, Offends, LowerParams, LowerStmt, StartFunction, Settled, Tidy, Assured, Falls, Sealed;
    var lo, g1, g2, names := NextLabel(g), BodyStart(g, d), BodyEnd(g, d), ParamNames(d.params);
    ShapeBody(g, d);
    InFunction(g, d);
    EntryIsPoint(g, d);
    ParamsArePoints(StartFunction(g, d), d.params, lo);
    AllSure(g1, lo, names);
    ReachStmt(g1, d.body, names, names, lo);
    EndSealed(g, d);
    if !AssuredFunction(d) {
      OffendsStays(g2.code, LowerFunction(g, d).code, lo);
    }
  }

  lemma InFunction(g: Gen, d: FunctionDef)
    ensures BodyStart(g, d).cur < |BodyStart(g, d).code.fns|
  {
    hide LowerParams, LowerStmt;
    ShapeBody(g, d);
    ShapeStartFunction(g, d);
  }

  lemma EndSealed(g: Gen, d: FunctionDef)
    ensures Sealed(BodyEnd(g, d).code, LowerFunction(g, d).code, NextLabel(g))
  {
    hide LowerParams, LowerStmt, StartFunction, Settled, Tidy;
    ShapeBody(g, d);
    var g2 := BodyEnd(g, d);
    if g2.ok && !Terminated(InsertBlock(g2)) {
      EmitSeals(g2, Unreachable, NextLabel(g));
    }
  }

  lemma PrefixSealed(c: Code, d: Code, lo: nat)
    requires c.blocks <= d.blocks
    ensures Sealed(c, d, lo)
  {
  }

  /** The code of a function is the same in the finished program. */
  lemma FunctionSealed(p: Program, i: nat)
    requires i < |p| && LowerProgram(p).ok
    ensures Sealed(LowerFunction(LowerProgram(p[..i]), p[i]).code, LowerProgram(p).code, NextLabel(LowerProgram(p[..i])))
    ensures LowerFunction(LowerProgram(p[..i]), p[i]).ok
  {
    hide LowerProgram, LowerFunction;
    Correctness.PrefixStep(p, i);
    Correctness.PrefixExtends(p, i + 1);
    PrefixSealed(LowerFunction(LowerProgram(p[..i]), p[i]).code, LowerProgram(p).code, NextLabel(LowerProgram(p[..i])));
  }

  lemma RouteIsPath(p: Program, i: nat, path: seq<nat>)
    requires i < |p| && i < |LowerProgram(p).code.fns| && Route(LowerProgram(p).code, NextLabel(LowerProgram(p[..i])), path)
    ensures PathOf(p, i, path)
  {
    hide LowerProgram;
    FunctionEntry(p, i);
  }

  /** Definite initialisation, exactly: every path through a function uses what it has written,
      allocated and stored to if and only if every use the rule on trees sees is of a sure name. */
  lemma InitialisedExactlyWhenAssured(p: Program, i: nat)
    requires LowerProgram(p).ok && i < |p| && i < |LowerProgram(p).code.fns|
    ensures (forall path :: PathOf(p, i, path) ==> UsesAfterDefs(Trace(LowerProgram(p).code, path)))
       <==> AssuredFunction(p[i])
  {
    hide LowerProgram, LowerFunction, UsesAfterDefs, AssuredFunction, Offends, Sealed;
    var g, c := LowerProgram(p[..i]), LowerProgram(p).code;
    if AssuredFunction(p[i]) {
      forall path | PathOf(p, i, path) ensures UsesAfterDefs(Trace(c, path)) {
        EveryPathIsInitialised(p, i, path);
      }
    } else {
      FunctionSealed(p, i);
      BodyVisited(g, p[i]);
      OffendsStays(LowerFunction(g, p[i]).code, c, NextLabel(g));
      OffenceIsUse(c, NextLabel(g));
      var path :| Route(c, NextLabel(g), path) && !UsesAfterDefs(Trace(c, path));
      RouteIsPath(p, i, path);
    }
  }

  /** The block in which the visit of the function's body ends. */
  function LastBlock(p: Program, i: nat): nat
    requires i < |p|
  {
    BodyEnd(LowerProgram(p[..i]), p[i]).insert
  }

  ghost predicate SomePathTo(p: Program, i: nat, l: nat)
    requires i < |LowerProgram(p).code.fns|
  {
    exists path :: PathOf(p, i, path) && path != [] && path[|path| - 1] == l
  }

  lemma EndIsNotReached(p: Program, i: nat)
    requires LowerProgram(p).ok && i < |p| && i < |LowerProgram(p).code.fns|
    requires Open(BodyEnd(LowerProgram(p[..i]), p[i])) && !Falls(p[i].body)
    ensures !SomePathTo(p, i, LastBlock(p, i))
  {
    hide LowerProgram, LowerFunction, Falls, Path, BodyEnd, Reaching.Closed;
    var g, c := LowerProgram(p[..i]), LowerProgram(p).code;
    FunctionSealed(p, i);
    var marks := Reaching.FunctionMarked(g, p[i]);
    Reaching.ClosedLength(BodyEnd(g, p[i]), marks, NextLabel(g));
    BodyInProgram(p, i);
    FunctionEntry(p, i);
    forall path | PathOf(p, i, path) && path != [] ensures path[|path| - 1] != LastBlock(p, i) {
      Reaching.PathStaysMarked(c, BodyEnd(g, p[i]), marks, NextLabel(g), path);
    }
  }

  /** The finished program has the code of the body, with the `unreachable` after it. */
  lemma BodyInProgram(p: Program, i: nat)
    requires i < |p| && LowerFunction(LowerProgram(p[..i]), p[i]).ok
    ensures var a, b := BodyEnd(LowerProgram(p[..i]), p[i]).code.blocks, LowerProgram(p).code.blocks;
      |a| <= |b| && forall l :: 0 <= l < |a| ==> SameOrEnded(a[l].code, b[l].code)
  {
    hide LowerProgram, LowerFunction;
    Correctness.PrefixStep(p, i);
    Correctness.PrefixExtends(p, i + 1);
    BodyInFunction(LowerProgram(p[..i]), p[i]);
  }

  lemma BodyInFunction(g: Gen, d: FunctionDef)
    requires LowerFunction(g, d).ok
    ensures var a, b := BodyEnd(g, d).code.blocks, LowerFunction(g, d).code.blocks;
      |a| <= |b| && forall l :: 0 <= l < |a| ==> SameOrEnded(a[l].code, b[l].code)
  {
    hide LowerParams, LowerStmt, Settled, Tidy;
    ShapeBody(g, d);
  }

  /** Some path leads to the `unreachable` at the end of a function if and only if control can get
      past the body. */
  lemma EndIsReachedExactlyWhenFalling(p: Program, i: nat)
    requires LowerProgram(p).ok && i < |p| && i < |LowerProgram(p).code.fns|
    requires Open(BodyEnd(LowerProgram(p[..i]), p[i]))
    ensures SomePathTo(p, i, LastBlock(p, i)) <==> Falls(p[i].body)
  {
    hide LowerProgram, LowerFunction, AssuredFunction, Falls, Offends, Sealed;
    var g, c := LowerProgram(p[..i]), LowerProgram(p).code;
    var lo, last := NextLabel(g), LastBlock(p, i);
    FunctionEntry(p, i);
    FunctionSealed(p, i);
    if Falls(p[i].body) {
      BodyVisited(g, p[i]);
      var e, r := BodyEnd(g, p[i]), NextReg(BodyEnd(g, p[i]));
      assert Way(e, lo, r);
      ArrivesStays(e.code, LowerFunction(g, p[i]).code, lo, last, r);
      ArrivesStays(LowerFunction(g, p[i]).code, c, lo, last, r);
      var path :| ArrivesBy(c, lo, last, r, path);
      RouteIsPath(p, i, path);
    } else if SomePathTo(p, i, last) {
      EndIsNotReached(p, i);
    }
  }

  // ----- well-scoped functions -----

  /** Without bare declarations as branches every use is of a sure name. */
  lemma {:induction false} WellScopedIsAssured(g: Gen, s: Stmt, names: set<string>, lo: nat)
    requires Ready(g, lo) && Resolves(g.scopes, names) && WellScoped(s, names) && LowerStmt(g, s).ok
    ensures Assured(s, names, names)
    decreases s
  {
    hide Ready, Resolves, LowerExpr, Settled, Tidy;
    match s
    case Assign(_, _, rhs) =>
      OperandOk(g, s, lo);
      NamesResolve(g, rhs, names, lo);
    case Print(e) =>
      OperandOk(g, s, lo);
      NamesResolve(g, e, names, lo);
    case Return(e) =>
      OperandOk(g, s, lo);
      NamesResolve(g, e, names, lo);
    case CallStmt(_) =>
    case Block(ss) =>
      PushedReady(g, names, lo);
      WellScopedSeqAssured(g.(scopes := g.scopes + [map[]]), ss, names, lo);
    case If(c, thn, els) =>
      IfSucceeds(g, s, lo);
      var st := StagesOfIf(g, s).value;
      IfBorders(g, s, st, names, lo);
      NamesResolve(g, c, names, lo);
      WellScopedIsSure(thn, names);
      ThenScopes(g, st, names, lo);
      WellScopedIsAssured(st.thenStart, thn, names, lo);
      if els.Some? {
        ReboundParts(st.test.g, st.elseStart, names, names);
        WellScopedIsAssured(st.elseStart, els.value, names, lo);
      }
    case While(c, body) =>
      WhileSucceeds(g, s, lo);
      var st := StagesOfWhile(g, s).value;
      WhileBorders(g, s, st, names, lo);
      ReboundParts(g, st.loopStart, names, names);
      NamesResolve(st.loopStart, c, names, lo);
      WhileScopes(g, st, names, lo);
      WellScopedIsAssured(st.bodyStart, body, names, lo);
    case DoWhile(body, c) => WellScopedDo(g, s, names, lo);
  }

  lemma ThenScopes(g: Gen, st: IfStages, names: set<string>, lo: nat)
    requires ThenShape(g, st, lo) && Resolves(g.scopes, names)
    ensures Resolves(st.thenStart.scopes, names)
  {
  }

  lemma WhileScopes(g: Gen, st: WhileStages, names: set<string>, lo: nat)
    requires Rebound(g, st.loopStart, names, names) && Rebound(st.test.g, st.bodyStart, names, names)
    ensures Resolves(st.bodyStart.scopes, names)
  {
  }

  lemma {:induction false} WellScopedDo(g: Gen, s: Stmt, names: set<string>, lo: nat)
    requires s.DoWhile? && Ready(g, lo) && Resolves(g.scopes, names) && WellScoped(s, names) && LowerStmt(g, s).ok
    ensures Assured(s, names, names)
    decreases s, 0
  {
    hide Resolves, LowerExpr, Settled, Tidy, StartDoWhile, Ready;
    var g0 := StartDoWhile(g);
    DoBody(g, s, lo);
    WellScopedIsSure(s.body, names);
    WellScopedIsAssured(g0, s.body, names, lo);
    if Falls(s.body) {
      var b1 := BoundAfter(s.body, names);
      FallsOpen(g0, s.body, lo);
      ReadyIsOpen(LowerStmt(g0, s.body), lo);
      ReboundStmt(g0, s.body, names, lo);
      ReboundParts(g0, LowerStmt(g0, s.body), names, b1);
      NamesResolve(LowerStmt(g0, s.body), s.cond, b1, lo);
    }
  }

  lemma {:induction false} WellScopedSeqAssured(g: Gen, ss: seq<Stmt>, names: set<string>, lo: nat)
    requires Ready(g, lo) && Resolves(g.scopes, names) && WellScopedSeq(ss, names) && LowerSeq(g, ss).ok
    ensures AssuredAll(ss, names, names)
    decreases ss
  {
    hide Ready, Resolves, Settled, Tidy;
    if ss != [] {
      var g1, b1 := LowerStmt(g, ss[0]), BoundAfter(ss[0], names);
      SeqGoesOn(g, ss, lo);
      WellScopedIsAssured(g, ss[0], names, lo);
      WellScopedIsSure(ss[0], names);
      if Falls(ss[0]) {
        FallsOpen(g, ss[0], lo);
        ReadyIsOpen(g1, lo);
        ReboundStmt(g, ss[0], names, lo);
        ReboundParts(g, g1, names, b1);
        WellScopedSeqAssured(g1, ss[1..], b1, lo);
      }
    }
  }

  lemma WellScopedFunctionIsAssured(g: Gen, d: FunctionDef)
    requires LowerFunction(g, d).ok && WellScopedFunction(d)
    ensures AssuredFunction(d)
  {
    hide LowerParams, LowerStmt, StartFunction, Settled, Tidy, Assured, WellScoped, AtPoint;
    var lo, g1, names := NextLabel(g), BodyStart(g, d), ParamNames(d.params);
    ShapeBody(g, d);
    EntryIsPoint(g, d);
    ParamsArePoints(StartFunction(g, d), d.params, lo);
    PointIsClear(g1, lo, names);
    WellScopedIsAssured(g1, d.body, names, lo);
  }
}
