/** The code generator as it is written: a visitor that appends to the builder's insert block, moves
    the insert point, keeps a stack of operands and a stack of scopes, and raises a flag on errors.

    Each visit is proved to do to the generator's state what its function in `Lowering` does, so the
    theorems about those functions hold of what the visitor emits.  In addition: the builder is only
    ever asked to append to a block that exists, is attached and has no terminator; a successful
    visit of an expression pushes exactly one operand, and of a statement none; an operand is popped
    only when there is one; and the flag is never taken back. */
module Codegen {
  import opened Wrappers
  import opened Ast
  import opened Ir
  import opened Lowering
  import opened Shape
  import opened Visits
  import opened FlowGraph
  import opened ScopeLevels

  class IRBuilder {
    var code: Code
    var insert: nat

    constructor ()
      ensures code == Code([], [], []) && insert == 0
    {
      code, insert := Code([], [], []), 0;
    }

    /** The insert block can be appended to. */
    ghost predicate CanEmit()
      reads this
    {
      insert < |code.blocks| && code.blocks[insert].parent.Some? && !Terminated(code.blocks[insert].code)
    }

    method Append(i: Instr)
      requires CanEmit()
      modifies this`code
      ensures code == old(code).(blocks := old(code).blocks[insert :=
        old(code).blocks[insert].(code := old(code).blocks[insert].code + [i])])
    {
      var b := code.blocks[insert];
      code := code.(blocks := code.blocks[insert := b.(code := b.code + [i])]);
    }

    method NewRegister(t: LType) returns (r: nat)
      modifies this`code
      ensures r == |old(code).regs| && code == old(code).(regs := old(code).regs + [t])
    {
      r := |code.regs|;
      code := code.(regs := code.regs + [t]);
    }

    method NewBlock(parent: Option<nat>) returns (l: nat)
      modifies this`code
      ensures l == |old(code).blocks|
      ensures code == old(code).(blocks := old(code).blocks + [BasicBlock([], parent)])
    {
      l := |code.blocks|;
      code := code.(blocks := code.blocks + [BasicBlock([], parent)]);
    }

    /** A block is inserted into a function once. */
    method InsertInto(l: nat, f: nat)
      requires l < |code.blocks| && code.blocks[l].parent.None?
      modifies this`code
      ensures code == old(code).(blocks := old(code).blocks[l := old(code).blocks[l].(parent := Some(f))])
    {
      code := code.(blocks := code.blocks[l := code.blocks[l].(parent := Some(f))]);
    }

    method NewFunction(fn: Fn) returns (f: nat)
      modifies this`code
      ensures f == |old(code).fns| && code == old(code).(fns := old(code).fns + [fn])
    {
      f := |code.fns|;
      code := code.(fns := code.fns + [fn]);
    }

    method SetInsertPoint(l: nat)
      modifies this`insert
      ensures insert == l
    {
      insert := l;
    }
  }

  class ScopeStack {
    var scopes: seq<Scope>

    constructor ()
      ensures scopes == []
    {
      scopes := [];
    }

    method Clear()
      modifies this
      ensures scopes == []
    {
      scopes := [];
    }

    method Push()
      modifies this
      ensures scopes == old(scopes) + [map[]]
    {
      scopes := scopes + [map[]];
    }

    method Pop()
      requires scopes != []
      modifies this
      ensures scopes == Popped(old(scopes))
    {
      scopes := scopes[..|scopes| - 1];
    }

    /** Binds the name in the innermost scope. */
    method DeclareName(name: string, alloca: nat)
      requires scopes != []
      modifies this
      ensures scopes == Declare(old(scopes), name, alloca)
    {
      var top := |scopes| - 1;
      var inner: Scope := scopes[top][name := alloca];
      assert scopes[..top] + [inner] == scopes[top := inner];
      scopes := scopes[top := inner];
    }

    /** From the innermost scope outwards. */
    method Find(name: string) returns (r: Option<nat>)
      ensures r == Lookup(scopes, name)
    {
      var i := |scopes|;
      assert scopes[..|scopes|] == scopes;
      while i > 0
        invariant 0 <= i <= |scopes|
        invariant Lookup(scopes, name) == Lookup(scopes[..i], name)
      {
        i := i - 1;
        assert scopes[..i + 1][..i] == scopes[..i];
        if name in scopes[i] {
          return Some(scopes[i][name]);
        }
      }
      return None;
    }
  }

  class Codegen {
    const builder: IRBuilder
    const scopeStack: ScopeStack
    var operands: seq<Operand>
    var funcs: map<string, nat>
    var currentFunc: nat
    var isSuccess: bool
    var generateIR: bool

    ghost function State(): Gen
      reads this, builder, scopeStack
    {
      Gen(builder.code, builder.insert, scopeStack.scopes, funcs, currentFunc, isSuccess)
    }

    constructor ()
      ensures State() == EMPTY_GEN && operands == [] && generateIR
      ensures fresh(builder) && fresh(scopeStack)
    {
      builder := new IRBuilder();
      scopeStack := new ScopeStack();
      operands, funcs, currentFunc, isSuccess, generateIR := [], map[], 0, true, true;
    }

    // ----- small steps -----

    method Error()
      modifies this`isSuccess, this`generateIR
      ensures State() == Lowering.Error(old(State())) && !generateIR
    {
      generateIR := false;
      isSuccess := false;
    }

    method Pop() returns (v: Operand)
      requires operands != []
      modifies this`operands
      ensures operands == old(operands)[..|old(operands)| - 1] && v == old(operands)[|old(operands)| - 1]
      ensures State() == old(State())
    {
      v := operands[|operands| - 1];
      operands := operands[..|operands| - 1];
    }

    method Push(v: Operand)
      modifies this`operands
      ensures operands == old(operands) + [v] && State() == old(State())
    {
      operands := operands + [v];
    }

    method Append(i: Instr)
      requires Open(State())
      modifies builder
      ensures State() == Emit(old(State()), i)
    {
      builder.Append(i);
    }

    /** The number of the next register. */
    function Fresh(): nat
      reads this, builder
    {
      |builder.code.regs|
    }

    /** Append an instruction that defines the next register. */
    method Define(t: LType, i: Instr) returns (v: Operand)
      requires Open(State())
      modifies builder
      ensures State() == EmitDef(old(State()), t, i) && v == Reg(NextReg(old(State())))
    {
      var r := builder.NewRegister(t);
      builder.Append(i);
      v := Reg(r);
    }

    method NewBlock(parent: Option<nat>) returns (l: nat)
      modifies builder
      ensures l == NextLabel(old(State())) && State() == CreateBlock(old(State()), parent)
    {
      l := builder.NewBlock(parent);
    }

    method SetInsertPoint(l: nat)
      modifies builder
      ensures State() == SetInsert(old(State()), l)
    {
      builder.SetInsertPoint(l);
    }

    method InsertInto(l: nat)
      requires l < NextLabel(State()) && State().code.blocks[l].parent.None?
      modifies builder
      ensures State() == Attach(old(State()), l)
    {
      builder.InsertInto(l, currentFunc);
    }

    method HasTerminator() returns (b: bool)
      requires Placed(State())
      ensures b == Terminated(InsertBlock(State()))
    {
      b := Terminated(builder.code.blocks[builder.insert].code);
    }

    /** Branch unless the insert block has a terminator already. */
    method Join(l: nat)
      requires Placed(State())
      modifies builder
      ensures State() == BranchIfOpen(old(State()), l)
    {
      var done := HasTerminator();
      if !done {
        Append(Br(l));
      }
    }

    method TypeOf(v: Operand) returns (t: LType)
      ensures t == OperandType(State(), v)
    {
      match v
      case CBool(_) => t := I1;
      case CInt(_) => t := I32T;
      case CFloat(_) => t := F32T;
      case Reg(r) => t := if r < |builder.code.regs| then builder.code.regs[r] else I32T;
      case Arg(i) =>
        var fns := builder.code.fns;
        t := if currentFunc < |fns| && i < |fns[currentFunc].params| then fns[currentFunc].params[i] else I32T;
    }

    /** A cast, or the value itself if it has the type already. */
    method Cast(v: Operand, to: LType) returns (r: Operand)
      requires Open(State())
      modifies builder
      ensures Lowered(State(), Some(r)) == LowerCast(old(State()), v, to)
    {
      var t := TypeOf(v);
      if t == to { return v; }
      r := Define(to, Op1(Fresh(), CastTo(to), v));
    }

    // ----- expressions -----

    /** What a visit of an expression does to the operand stack and the flag. */
    twostate predicate Pushed(r: Lowered)
      reads this, builder, scopeStack
    {
      && State() == r.g && (isSuccess ==> old(isSuccess))
      && (if isSuccess then r.operand.Some? && operands == old(operands) + [r.operand.value]
          else old(operands) <= operands)
    }

    method VisitExpr(e: Expr, ghost lo: nat)
      requires Ready(State(), lo)
      modifies this, builder
      ensures Pushed(old(LowerExpr(State(), e))) && Ready(State(), lo)
      decreases e, 1
    {
      ShapeExpr(State(), e, lo);
      match e
      case Var(name, t) =>
        var val := scopeStack.Find(name);
        if val == None {
          Error();
          return;
        }
        var v := Define(ToLType(t), Load(Fresh(), ToLType(t), val.value));
        Push(v);
      case BoolLit(b) => Push(CBool(b));
      case IntLit(n) => Push(CInt(n));
      case FloatLit(f) => Push(CFloat(f));
      case Binary(_, op, _, _) =>
        if op.And? || op.Or? { ShortCircuit(e, lo); } else { Strict(e, lo); }
      case Unary(_, _) => VisitUnary(e, lo);
      case Call(_, _, _) => VisitFuncall(e, lo);
    }

    /** `biarithmetic` and `birel`. */
    method Strict(e: Expr, ghost lo: nat)
      requires Ready(State(), lo) && e.Binary? && (e.op.IsArithmetic() || e.op.IsRelation())
      modifies this, builder
      ensures Pushed(old(LowerExpr(State(), e)))
      decreases e, 0
    {
      hide Ready, LowerStrict, Emit, EmitDef;
      VisitExpr(e.lhs, lo);
      if !isSuccess { return; }
      VisitExpr(e.rhs, lo);
      if !isSuccess { return; }
      var rhs := Pop();
      var lhs := Pop();
      var v := Combine(e.lhs.Type() == FLOAT || e.rhs.Type() == FLOAT, e.op, lhs, rhs, lo);
      Push(v);
    }

    /** Both operands are converted if either is a float. */
    method Combine(isFloat: bool, op: BinaryOp, lhs: Operand, rhs: Operand, ghost lo: nat) returns (v: Operand)
      requires Ready(State(), lo) && (op.IsArithmetic() || op.IsRelation())
      modifies builder
      ensures Lowered(State(), Some(v)) == LowerStrict(old(State()), isFloat, op, lhs, rhs)
    {
      hide LowerCast, EmitDef, Terminated;
      var l, r := lhs, rhs;
      if isFloat {
        ShapeCast(State(), lhs, F32T, lo);
        l := Cast(lhs, F32T);
        ShapeCast(State(), rhs, F32T, lo);
        r := Cast(rhs, F32T);
      }
      v := Define(ResultType(isFloat, op), Op2(Fresh(), SelectOp2(isFloat, op), l, r));
    }

    method ShortCircuit(e: Expr, ghost lo: nat)
      requires Ready(State(), lo) && e.Binary? && (e.op.And? || e.op.Or?)
      modifies this, builder
      ensures Pushed(old(LowerExpr(State(), e)))
      decreases e, 0
    {
      hide Ready, StartShortCircuit, EndShortCircuit, Settled, Tidy;
      VisitExpr(e.lhs, lo);
      if !isSuccess { return; }
      var lhsVal := Pop();
      var slot := Fresh();
      var merge := Branch(e.op, lhsVal, lo);
      ShapeExpr(State(), e.rhs, lo);
      VisitExpr(e.rhs, lo);
      if !isSuccess { return; }
      var rhsVal := Pop();
      var v := Merge(slot, merge, rhsVal, lo);
      Push(v);
    }

    /** Save the right side, go on in the merge block, and load whichever side was saved last. */
    method Merge(slot: nat, merge: nat, v: Operand, ghost lo: nat) returns (r: Operand)
      requires Ready(State(), lo) && merge < NextLabel(State())
      requires State().code.blocks[merge] == BasicBlock([], None)
      modifies builder
      ensures Lowered(State(), Some(r)) == EndShortCircuit(old(State()), slot, merge, v)
    {
      Append(Store(v, slot));
      Append(Br(merge));
      InsertInto(merge);
      SetInsertPoint(merge);
      r := Define(I1, Load(Fresh(), I1, slot));
    }

    /** Save the left side, create the two blocks, branch, and enter the right side's block. */
    method Branch(op: BinaryOp, v: Operand, ghost lo: nat) returns (merge: nat)
      requires Ready(State(), lo) && (op.And? || op.Or?)
      modifies builder
      ensures State() == StartShortCircuit(old(State()), op, v) && Ready(State(), lo)
      ensures merge == NextLabel(old(State())) + 1 && Waiting(old(State()), State(), merge)
      ensures State().insert == NextLabel(old(State()))
    {
      ShapeStartShortCircuit(State(), op, v, lo);
      var slot := Fresh();
      SaveLeft(v, slot, lo);
      var rhs := NewBlock(Some(currentFunc));
      merge := NewBlock(None);
      if op.And? {
        Append(CondBr(v, rhs, merge));
      } else {
        Append(CondBr(v, merge, rhs));
      }
      SetInsertPoint(rhs);
    }

    method SaveLeft(v: Operand, slot: nat, ghost lo: nat)
      requires Ready(State(), lo) && slot == NextReg(State())
      modifies builder
      ensures State() == old(Emit(EmitDef(State(), PtrTo(I1), Alloca(slot, I1)), Store(v, slot)))
      ensures Open(State()) && NextLabel(State()) == NextLabel(old(State()))
    {
      ShapeSaveLeft(State(), v, lo);
      var _ := Define(PtrTo(I1), Alloca(slot, I1));
      Append(Store(v, slot));
    }

    method VisitUnary(e: Expr, ghost lo: nat)
      requires Ready(State(), lo) && e.Unary?
      modifies this, builder
      ensures Pushed(old(LowerExpr(State(), e)))
      decreases e, 0
    {
      VisitExpr(e.sub, lo);
      if e.uop == Pos { return; }
      if !isSuccess { return; }
      var val := Pop();
      if e.uop == Not {
        var v := Define(I1, Op1(Fresh(), NotI, val));
        Push(v);
      } else if e.sub.Type() == FLOAT {
        var v := Define(F32T, Op1(Fresh(), NegF, val));
        Push(v);
      } else if e.sub.Type() == INTEGER {
        var v := Define(I32T, Op1(Fresh(), NegI, val));
        Push(v);
      } else {
        Error();
      }
    }

    method VisitFuncall(e: Expr, ghost lo: nat)
      requires Ready(State(), lo) && e.Call?
      modifies this, builder
      ensures Pushed(old(LowerExpr(State(), e)))
      decreases e, 0
    {
      if e.callee !in funcs || funcs[e.callee] >= |builder.code.fns| {
        Error();
        return;
      }
      var f := funcs[e.callee];
      var fn := builder.code.fns[f];
      if |e.args| != |fn.params| {
        Error();
        return;
      }
      var argsVal, done := VisitArgs(e.args, fn.params, lo);
      if !done { return; }
      var v := Define(fn.ret, CallFn(Fresh(), f, argsVal));
      Push(v);
    }

    /** What is left to do for the arguments from `i` on, given those that are done. */
    ghost predicate ToVisit(all: LoweredArgs, g: Gen, args: seq<Expr>, params: seq<LType>, i: nat, argsVal: seq<Operand>)
      requires i <= |args| == |params|
    {
      var rest := LowerArgs(g, args[i..], params[i..]);
      all == LoweredArgs(rest.g, argsVal + rest.operands)
    }

    lemma ToVisitFirst(g: Gen, args: seq<Expr>, params: seq<LType>)
      requires |args| == |params|
      ensures ToVisit(LowerArgs(g, args, params), g, args, params, 0, [])
    {
      hide LowerArgs;
      assert args[0..] == args && params[0..] == params;
    }

    lemma ToVisitNext(all: LoweredArgs, g: Gen, args: seq<Expr>, params: seq<LType>, i: nat, argsVal: seq<Operand>)
      requires i < |args| == |params| && ToVisit(all, g, args, params, i, argsVal)
      ensures var g1 := LowerExpr(g, args[i]);
        if !g1.g.ok || g1.operand.None? then all.g == g1.g
        else
          var g2 := LowerCast(g1.g, g1.operand.value, params[i]);
          ToVisit(all, g2.g, args, params, i + 1, argsVal + [g2.operand.value])
    {
      hide LowerExpr, LowerCast, LowerArgs;
      ArgsStep(g, args, params, i);
    }

    lemma ToVisitNone(all: LoweredArgs, g: Gen, args: seq<Expr>, params: seq<LType>, argsVal: seq<Operand>)
      requires |args| == |params| && ToVisit(all, g, args, params, |args|, argsVal)
      ensures all == LoweredArgs(g, argsVal)
    {
    }

    /** Visits, pops and converts the arguments in order; stops at the first failure. */
    method VisitArgs(args: seq<Expr>, params: seq<LType>, ghost lo: nat) returns (argsVal: seq<Operand>, done: bool)
      requires Ready(State(), lo) && |args| == |params|
      modifies this, builder
      ensures Ready(State(), lo) && (isSuccess ==> old(isSuccess))
      ensures done <==> isSuccess || args == []
      ensures var r := old(LowerArgs(State(), args, params)); State() == r.g && (done ==> argsVal == r.operands)
      ensures if done then operands == old(operands) else old(operands) <= operands
      decreases args
    {
      hide Ready, LowerArgs, LowerExpr, LowerCast, ToVisit;
      argsVal, done := [], true;
      ghost var all := LowerArgs(State(), args, params);
      ToVisitFirst(State(), args, params);
      for i := 0 to |args|
        invariant Ready(State(), lo) && done && (isSuccess ==> old(isSuccess)) && (i > 0 ==> isSuccess)
        invariant operands == old(operands) && ToVisit(all, State(), args, params, i, argsVal)
      {
        ToVisitNext(all, State(), args, params, i, argsVal);
        VisitExpr(args[i], lo);
        if !isSuccess {
          done := false;
          return;
        }
        var res := PopConverted(params[i], lo);
        argsVal := argsVal + [res];
      }
      ToVisitNone(all, State(), args, params, argsVal);
    }

    method PopConverted(to: LType, ghost lo: nat) returns (res: Operand)
      requires Ready(State(), lo) && operands != []
      modifies this`operands, builder
      ensures operands == old(operands)[..|old(operands)| - 1] && Ready(State(), lo)
      ensures Lowered(State(), Some(res)) == LowerCast(old(State()), old(operands)[|old(operands)| - 1], to)
    {
      hide LowerCast;
      res := Pop();
      ShapeCast(State(), res, to, lo);
      res := Cast(res, to);
    }

    lemma ArgsStep(g: Gen, args: seq<Expr>, params: seq<LType>, i: nat)
      requires i < |args| == |params|
      ensures var g1 := LowerExpr(g, args[i]);
        LowerArgs(g, args[i..], params[i..]) ==
          if !g1.g.ok || g1.operand.None? then LoweredArgs(g1.g, [])
          else
            var g2 := LowerCast(g1.g, g1.operand.value, params[i]);
            var g3 := LowerArgs(g2.g, args[i + 1..], params[i + 1..]);
            LoweredArgs(g3.g, [g2.operand.value] + g3.operands)
    {
      assert args[i..][0] == args[i] && args[i..][1..] == args[i + 1..];
      assert params[i..][0] == params[i] && params[i..][1..] == params[i + 1..];
    }

    // ----- statements -----

    /** What a visit of a statement does to the operand stack and the flag. */
    twostate predicate Visited(g: Gen)
      reads this, builder, scopeStack
    {
      && State() == g && (isSuccess ==> old(isSuccess))
      && (if isSuccess then operands == old(operands) else old(operands) <= operands)
    }

    method VisitStmt(s: Stmt, ghost lo: nat)
      requires Ready(State(), lo) && State().cur < |State().code.fns| && State().scopes != []
      modifies this, builder, scopeStack
      ensures Visited(old(LowerStmt(State(), s))) && StmtShape(old(State()), State(), lo)
      ensures InnerGrows(old(State().scopes), State().scopes)
      decreases s, 2
    {
      hide Ready, StmtShape, InnerGrows;
      ShapeStmt(State(), s, lo);
      StmtLevels(State(), s, lo);
      match s
      case Assign(_, _, _) => VisitAssignment(s, lo);
      case Print(e) => VisitIoPrint(e, lo);
      case Return(e) => VisitReturn(e, lo);
      case CallStmt(_) =>
      case Block(_) => VisitBlock(s, lo);
      case If(_, _, _) => VisitIf(s, lo);
      case While(_, _) => VisitWhile(s, lo);
      case DoWhile(_, _) => VisitDoWhile(s, lo);
    }

    method VisitAssignment(s: Stmt, ghost lo: nat)
      requires Ready(State(), lo) && s.Assign? && State().scopes != []
      modifies this, builder, scopeStack
      ensures Visited(old(LowerStmt(State(), s)))
      decreases s, 0
    {
      hide Ready, LowerAssign, Settled, Tidy;
      var alloca := scopeStack.Find(s.name);
      ShapeExpr(State(), s.rhs, lo);
      VisitExpr(s.rhs, lo);
      if !isSuccess { return; }
      var rhs := Pop();
      if alloca == None {
        DeclareVariable(s.name, s.varTy, s.rhs.Type(), rhs, lo);
      } else {
        AssignVariable(alloca.value, s.name, s.varTy, s.rhs.Type(), rhs, lo);
      }
    }

    /** A value about to be stored: cast only if the types of the trees differ. */
    method Converted(v: Operand, from: TType, to: TType, ghost lo: nat) returns (r: Operand)
      requires Ready(State(), lo)
      modifies builder
      ensures Lowered(State(), Some(r)) == LowerConversion(old(State()), v, from, to) && Ready(State(), lo)
    {
      hide LowerCast;
      r := v;
      if to != from {
        ShapeCast(State(), v, ToLType(to), lo);
        r := Cast(v, ToLType(to));
      }
    }

    method DeclareVariable(name: string, t: TType, from: TType, v: Operand, ghost lo: nat)
      requires Ready(State(), lo) && State().scopes != [] && Lookup(State().scopes, name) == None
      modifies builder, scopeStack
      ensures State() == LowerAssign(old(State()), name, t, from, v)
    {
      hide Terminated, Lookup, Declare, LowerConversion, Tidy, EmitDef;
      var slot := Fresh();
      DefinedCell(State(), t, slot, lo);
      var _ := Define(PtrTo(ToLType(t)), Alloca(slot, ToLType(t)));
      var rhs := Converted(v, from, t, lo);
      ConversionScopes(old(State()), t, slot, v, from);
      Append(Store(rhs, slot));
      scopeStack.DeclareName(name, slot);
    }

    lemma DefinedCell(g: Gen, t: TType, slot: nat, lo: nat)
      requires Ready(g, lo)
      ensures Ready(EmitDef(g, PtrTo(ToLType(t)), Alloca(slot, ToLType(t))), lo)
    {
      ShapeDef(g, PtrTo(ToLType(t)), Alloca(slot, ToLType(t)), lo);
    }

    lemma ConversionScopes(g: Gen, t: TType, slot: nat, v: Operand, from: TType)
      ensures var h := EmitDef(g, PtrTo(ToLType(t)), Alloca(slot, ToLType(t)));
        LowerConversion(h, v, from, t).g.scopes == g.scopes
    {
    }

    method AssignVariable(slot: nat, name: string, t: TType, from: TType, v: Operand, ghost lo: nat)
      requires Ready(State(), lo) && Lookup(State().scopes, name) == Some(slot)
      modifies builder
      ensures State() == LowerAssign(old(State()), name, t, from, v)
    {
      hide Terminated, Lookup, LowerConversion, Tidy;
      var rhs := Converted(v, from, t, lo);
      Append(Store(rhs, slot));
    }

    method VisitIoPrint(e: Expr, ghost lo: nat)
      requires Ready(State(), lo)
      modifies this, builder
      ensures Visited(old(LowerStmt(State(), Print(e))))
    {
      hide Ready, LowerPrint;
      VisitExpr(e, lo);
      if !isSuccess { return; }
      var val := Pop();
      PrintValue(e.Type(), val, lo);
    }

    /** A float is printed as a double, a bool as an `int`. */
    method PrintValue(t: TType, v: Operand, ghost lo: nat)
      requires Ready(State(), lo)
      modifies builder
      ensures State() == LowerPrint(old(State()), t, v)
    {
      hide Terminated, Tidy;
      if t == FLOAT {
        var r := Fresh();
        ShapeDef(State(), F64T, FPExt(r, v), lo);
        var _ := Define(F64T, FPExt(r, v));
        Append(PrintF64(r));
      } else {
        var val := v;
        if t == BOOL {
          ShapeDef(State(), I32T, Op1(Fresh(), ZExtI, v), lo);
          val := Define(I32T, Op1(Fresh(), ZExtI, v));
        }
        Append(PrintI32(val));
      }
    }

    method VisitReturn(e: Expr, ghost lo: nat)
      requires Ready(State(), lo) && State().cur < |State().code.fns|
      modifies this, builder
      ensures Visited(old(LowerStmt(State(), Return(e))))
    {
      hide Terminated, Tidy, Settled;
      ShapeExpr(State(), e, lo);
      VisitExpr(e, lo);
      if !isSuccess { return; }
      var res := Pop();
      var ret := builder.code.fns[currentFunc].ret;
      ShapeCast(State(), res, ret, lo);
      res := Cast(res, ret);
      Append(Ret(res));
    }

    method VisitBlock(s: Stmt, ghost lo: nat)
      requires Ready(State(), lo) && s.Block? && State().cur < |State().code.fns| && State().scopes != []
      modifies this, builder, scopeStack
      ensures Visited(old(LowerStmt(State(), s)))
      decreases s, 0
    {
      hide Ready, LowerStmt;
      BlockEquation(State(), s);
      ReadyRescoped(State(), State().scopes + [map[]], lo);
      scopeStack.Push();
      VisitStatements(s.stmts, lo);
      scopeStack.Pop();
    }

    lemma BlockEquation(g: Gen, s: Stmt)
      requires s.Block?
      ensures var g1 := LowerSeq(g.(scopes := g.scopes + [map[]]), s.stmts);
        LowerStmt(g, s) == g1.(scopes := Popped(g1.scopes))
    {
    }

    /** Stops after a failure and after a statement that ended the insert block. */
    method VisitStatements(ss: seq<Stmt>, ghost lo: nat)
      requires Ready(State(), lo) && State().cur < |State().code.fns| && State().scopes != []
      modifies this, builder, scopeStack
      ensures Visited(old(LowerSeq(State(), ss))) && State().scopes != []
      decreases ss
    {
      hide Ready, LowerStmt, StmtShape, InnerGrows, Terminated;
      ghost var g := State();
      SeqLevels(g, ss, lo);
      NotEmpty(g.scopes, LowerSeq(g, ss).scopes);
      var i := 0;
      assert ss[0..] == ss;
      while i < |ss|
        invariant 0 <= i <= |ss|
        invariant Ready(State(), lo) && LowerSeq(g, ss) == LowerSeq(State(), ss[i..])
        invariant (isSuccess ==> old(isSuccess)) && State().scopes != [] && State().cur < |State().code.fns|
        invariant if isSuccess then operands == old(operands) else i == 0 && operands == old(operands)
      {
        assert ss[i..][0] == ss[i] && ss[i..][1..] == ss[i + 1..];
        ghost var g1 := State();
        VisitStmt(ss[i], lo);
        NotEmpty(g1.scopes, State().scopes);
        AfterStmt(g1, State(), lo);
        if !isSuccess { break; }
        var done := HasTerminator();
        if done { break; }
        i := i + 1;
      }
    }

    lemma AfterStmt(g: Gen, h: Gen, lo: nat)
      requires StmtShape(g, h, lo) && g.cur < |g.code.fns|
      ensures Placed(h) && h.cur < |h.code.fns|
      ensures !Terminated(InsertBlock(h)) ==> Ready(h, lo)
    {
    }

    /** The end of a branch: join `target`, then go on in the block `next`, which was waiting. */
    method Continue(target: nat, next: nat)
      requires Placed(State()) && next < NextLabel(State()) && State().code.blocks[next].parent.None?
      modifies builder
      ensures State() == SetInsert(Attach(BranchIfOpen(old(State()), target), next), next)
    {
      Join(target);
      InsertInto(next);
      SetInsertPoint(next);
    }

    method EnterThen(cond: Operand, ghost lo: nat) returns (elseBb: nat, mergeBb: nat)
      requires Ready(State(), lo)
      modifies builder
      ensures State() == StartIf(old(State()), cond)
      ensures elseBb == NextLabel(old(State())) + 1 && mergeBb == elseBb + 1
    {
      var thenBb := NewBlock(Some(currentFunc));
      elseBb := NewBlock(None);
      mergeBb := NewBlock(None);
      Append(CondBr(cond, thenBb, elseBb));
      SetInsertPoint(thenBb);
    }

    method VisitIf(s: Stmt, ghost lo: nat)
      requires Ready(State(), lo) && s.If? && State().cur < |State().code.fns| && State().scopes != []
      modifies this, builder, scopeStack
      ensures Visited(old(LowerStmt(State(), s)))
      decreases s, 1
    {
      hide Ready, StartIf, InnerGrows, StmtShape, ExprShape, Underway, Waiting, BranchIfOpen, LowerStmt, LowerExpr;
      IfEquation(State(), s);
      ShapeExpr(State(), s.cond, lo);
      SameAfterExpr(State(), LowerExpr(State(), s.cond), lo);
      VisitExpr(s.cond, lo);
      if !isSuccess { return; }
      var cond := Pop();
      ghost var g1 := State();
      ShapeStartIf(g1, cond, lo);
      var elseBb, mergeBb := EnterThen(cond, lo);
      ghost var g2 := State();
      SameAfterStart(g1, g2, elseBb, lo);
      VisitStmt(s.thn, lo);
      if !isSuccess { return; }
      NotEmpty(g2.scopes, State().scopes);
      ThenJoined(g1, g2, State(), elseBb, lo);
      Continue(mergeBb, elseBb);
      VisitElse(s, g1, mergeBb, lo);
    }

    /** From the end of the first arm into the block of the second. */
    lemma ThenJoined(g1: Gen, g2: Gen, g3: Gen, l: nat, lo: nat)
      requires Underway(g1, g2, {l, l + 1}, lo) && Ready(g2, lo) && StmtShape(g2, g3, lo) && g3.ok
      requires Waiting(g1, g2, l) && Waiting(g1, g2, l + 1) && lo <= l && g1.cur < |g1.code.fns|
      ensures Placed(g3) && l < NextLabel(g3) && g3.code.blocks[l].parent.None?
      ensures var h := SetInsert(Attach(BranchIfOpen(g3, l + 1), l), l);
        && Ready(h, lo) && h.cur < |h.code.fns| && h.scopes == g3.scopes && h.ok
        && Underway(g1, h, {l + 1}, lo) && Waiting(g1, h, l + 1)
    {
      hide Settled, Tidy;
      ShapeNested(g1, g2, g3, {l, l + 1}, lo);
      ShapeJoin(g1, g3, l + 1, l, {l, l + 1}, {l + 1}, lo);
    }

    /** The second arm, if there is one, and the join. */
    method VisitElse(s: Stmt, ghost g1: Gen, mergeBb: nat, ghost lo: nat)
      requires s.If? && Ready(State(), lo) && State().cur < |State().code.fns| && State().scopes != []
      requires Underway(g1, State(), {mergeBb}, lo) && Waiting(g1, State(), mergeBb)
      modifies this, builder, scopeStack
      ensures var g5 := old(if s.els.Some? then LowerStmt(State(), s.els.value) else State());
        Visited(if g5.ok then SetInsert(Attach(BranchIfOpen(g5, mergeBb), mergeBb), mergeBb) else g5)
      decreases s, 0
    {
      hide InnerGrows, Terminated, Underway, BranchIfOpen, LowerStmt;
      ghost var g4 := State();
      UnderwayStart(g4, {}, lo);
      if s.els.Some? {
        VisitStmt(s.els.value, lo);
      }
      if !isSuccess { return; }
      NestedArm(g1, g4, State(), mergeBb, lo);
      IsWaiting(g1, State(), mergeBb);
      Continue(mergeBb, mergeBb);
    }

    lemma NestedArm(b: Gen, g: Gen, h: Gen, merge: nat, lo: nat)
      requires Underway(b, g, {merge}, lo) && Waiting(b, g, merge) && Ready(g, lo)
      requires h == g || StmtShape(g, h, lo)
      ensures Waiting(b, h, merge) && Placed(h)
    {
      UnderwayStart(g, {}, lo);
      ShapeNested(b, g, h, {merge}, lo);
    }

    lemma IsWaiting(b: Gen, g: Gen, l: nat)
      requires Waiting(b, g, l)
      ensures l < NextLabel(g) && g.code.blocks[l].parent.None?
    {
    }

    lemma SameAfterExpr(g: Gen, r: Lowered, lo: nat)
      requires ExprShape(g, r, lo)
      ensures r.g.cur == g.cur && r.g.code.fns == g.code.fns && r.g.scopes == g.scopes
    {
    }

    lemma SameAfterStart(g: Gen, h: Gen, l: nat, lo: nat)
      requires Underway(g, h, {l, l + 1}, lo)
      ensures h.cur == g.cur && h.code.fns == g.code.fns
    {
    }

    method EnterLoop() returns (loopBb: nat, thenBb: nat, afterBb: nat)
      requires Open(State())
      modifies builder
      ensures State() == StartWhile(old(State()))
      ensures loopBb == NextLabel(old(State())) && thenBb == loopBb + 1 && afterBb == loopBb + 2
    {
      loopBb := NewBlock(Some(currentFunc));
      thenBb := NewBlock(Some(currentFunc));
      afterBb := NewBlock(None);
      Append(Br(loopBb));
      SetInsertPoint(loopBb);
    }

    method VisitWhile(s: Stmt, ghost lo: nat)
      requires Ready(State(), lo) && s.While? && State().cur < |State().code.fns| && State().scopes != []
      modifies this, builder, scopeStack
      ensures Visited(old(LowerStmt(State(), s)))
      decreases s, 0
    {
      hide Settled, Tidy, StartWhile, InnerGrows, Terminated, LowerExpr, LowerStmt, BranchIfOpen;
      ghost var g := State();
      WhileEquation(g, s);
      ShapeStartWhile(g, lo);
      var loopBb, thenBb, afterBb := EnterLoop();
      ghost var g0 := State();
      ShapeExpr(g0, s.cond, lo);
      VisitExpr(s.cond, lo);
      if !isSuccess { return; }
      var cond := Pop();
      ghost var r := LowerExpr(g0, s.cond);
      ExprNested(g, g0, r, {thenBb, afterBb}, lo);
      ShapeEnterBody(g, r, thenBb, afterBb, lo);
      Append(CondBr(cond, thenBb, afterBb));
      SetInsertPoint(thenBb);
      ghost var g2 := State();
      VisitStmt(s.body, lo);
      if !isSuccess { return; }
      ShapeNested(g, g2, State(), {afterBb}, lo);
      Continue(loopBb, afterBb);
    }

    /** From the test of a loop into its body. */
    lemma ShapeEnterBody(g: Gen, r: Lowered, thenBb: nat, afterBb: nat, lo: nat)
      requires Underway(g, r.g, {thenBb, afterBb}, lo) && Ready(r.g, lo) && r.operand.Some?
      requires |g.code.blocks| <= thenBb < NextLabel(r.g) && lo <= thenBb && thenBb != r.g.insert
      requires r.g.code.blocks[thenBb] == BasicBlock([], Some(r.g.cur)) && Waiting(g, r.g, afterBb) && thenBb != afterBb
      ensures var h := SetInsert(Emit(r.g, CondBr(r.operand.value, thenBb, afterBb)), thenBb);
        Underway(g, h, {afterBb}, lo) && Ready(h, lo) && Waiting(g, h, afterBb)
    {
      var i := CondBr(r.operand.value, thenBb, afterBb);
      UnderwayEmit(g, r.g, i, {thenBb, afterBb}, lo);
      ShapeEnter(g, Emit(r.g, i), thenBb, {thenBb, afterBb}, {afterBb}, lo);
    }

    method EnterDo(ghost lo: nat) returns (loopBb: nat, afterBb: nat)
      requires Ready(State(), lo)
      modifies builder
      ensures State() == StartDoWhile(old(State()))
      ensures loopBb == NextLabel(old(State())) && afterBb == loopBb + 1
    {
      loopBb := NewBlock(Some(currentFunc));
      afterBb := NewBlock(None);
      Append(Br(loopBb));
      SetInsertPoint(loopBb);
    }

    /** The test at the end of a do-while: evaluate the condition and branch on it. */
    method TestAtEnd(c: Expr, loopBb: nat, afterBb: nat, ghost lo: nat)
      requires Ready(State(), lo)
      modifies this, builder
      ensures var r := old(LowerExpr(State(), c));
        if isSuccess then
          r.g.ok && r.operand.Some? && State() == Emit(r.g, CondBr(r.operand.value, loopBb, afterBb))
        else State() == r.g
      ensures (isSuccess ==> old(isSuccess)) && if isSuccess then operands == old(operands) else old(operands) <= operands
    {
      VisitExpr(c, lo);
      if !isSuccess { return; }
      var cond := Pop();
      Append(CondBr(cond, loopBb, afterBb));
    }

    /** The block after the loop is still waiting when the test has been generated. */
    lemma StillWaiting(b: Gen, g: Gen, r: Lowered, l: nat, i: Instr, lo: nat)
      requires Underway(b, g, {l}, lo) && Ready(g, lo) && ExprShape(g, r, lo) && Waiting(b, g, l)
      ensures var h := Emit(r.g, i); l < NextLabel(h) && h.code.blocks[l].parent.None?
    {
      ExprNested(b, g, r, {l}, lo);
    }

    method VisitDoWhile(s: Stmt, ghost lo: nat)
      requires Ready(State(), lo) && s.DoWhile? && State().cur < |State().code.fns| && State().scopes != []
      modifies this, builder, scopeStack
      ensures Visited(old(LowerStmt(State(), s)))
      decreases s, 0
    {
      hide Ready, ExprShape, StartDoWhile, InnerGrows, Terminated, StmtShape, LowerStmt, LowerExpr, Underway, Waiting;
      ghost var g := State();
      DoEquation(g, s);
      ShapeStartDoWhile(g, lo);
      var loopBb, afterBb := EnterDo(lo);
      ghost var g0 := State();
      SameAfterDo(g, g0, afterBb, lo);
      VisitStmt(s.body, lo);
      if !isSuccess { return; }
      ghost var g1 := State();
      ShapeNested(g, g0, g1, {afterBb}, lo);
      IsWaiting(g, g1, afterBb);
      AfterStmt(g0, g1, lo);
      var done := HasTerminator();
      if !done {
        ShapeExpr(g1, s.cond, lo);
        TestAtEnd(s.cond, loopBb, afterBb, lo);
        if !isSuccess { return; }
        StillWaiting(g, g1, LowerExpr(g1, s.cond), afterBb,
                     CondBr(LowerExpr(g1, s.cond).operand.value, loopBb, afterBb), lo);
      }
      InsertInto(afterBb);
      SetInsertPoint(afterBb);
    }

    lemma SameAfterDo(g: Gen, h: Gen, l: nat, lo: nat)
      requires Underway(g, h, {l}, lo)
      ensures h.cur == g.cur && h.code.fns == g.code.fns
    {
    }

    // ----- functions and programs -----

    /** The record, the scope and the entry block of a function. */
    method EnterFunction(d: FunctionDef)
      modifies this`funcs, this`currentFunc, builder, scopeStack
      ensures State() == StartFunction(old(State()), d) && operands == old(operands)
    {
      scopeStack.Clear();
      scopeStack.Push();
      assert scopeStack.scopes == [map[]];
      var f := builder.NewFunction(Fn(d.name, ToLTypes(d.params), ToLType(d.ty), |builder.code.blocks|));
      funcs := funcs[d.name := f];
      currentFunc := f;
      var bb := builder.NewBlock(Some(f));
      builder.SetInsertPoint(bb);
    }

    /** A cell for each parameter, holding the argument. */
    method BindParameters(params: seq<Param>, ghost lo: nat)
      requires Ready(State(), lo) && State().scopes != []
      modifies builder, scopeStack
      ensures State() == LowerParams(old(State()), params)
    {
      ghost var g := State();
      assert params[..0] == [];
      for i := 0 to |params|
        invariant State() == LowerParams(g, params[..i]) && State().scopes != []
      {
        assert params[..i + 1][..i] == params[..i];
        ShapeParams(g, params[..i], lo);
        BindParameter(params[i], i, lo);
      }
      assert params[..|params|] == params;
    }

    method BindParameter(p: Param, i: nat, ghost lo: nat)
      requires Ready(State(), lo) && State().scopes != []
      modifies builder, scopeStack
      ensures State() == LowerParam(old(State()), p, i) && State().scopes != []
    {
      hide Terminated, Declare;
      var slot := Fresh();
      ShapeDef(State(), PtrTo(ToLType(p.ty)), Alloca(slot, ToLType(p.ty)), lo);
      var _ := Define(PtrTo(ToLType(p.ty)), Alloca(slot, ToLType(p.ty)));
      Append(Store(Arg(i), slot));
      scopeStack.DeclareName(p.name, slot);
      DeclaredNotEmpty(old(State()).scopes, p.name, slot);
    }

    lemma DeclaredNotEmpty(scopes: seq<Scope>, name: string, slot: nat)
      requires scopes != []
      ensures Declare(scopes, name, slot) != []
    {
    }

    method VisitFunctionDef(d: FunctionDef)
      modifies this, builder, scopeStack
      ensures Visited(old(LowerFunction(State(), d)))
    {
      hide StartFunction, LowerParams, LowerStmt, Terminated, Ready, StmtShape;
      ghost var g := State();
      ghost var lo := NextLabel(g);
      ShapeStartFunction(g, d);
      ShapeBody(g, d);
      StartScopes(g, d);
      EnterFunction(d);
      BindParameters(d.params, lo);
      InBody(g, d);
      VisitStmt(d.body, lo);
      if !isSuccess { return; }
      AfterStmt(BodyStart(g, d), State(), lo);
      var done := HasTerminator();
      if !done {
        Append(Unreachable);
      }
    }

    lemma StartScopes(g: Gen, d: FunctionDef)
      ensures StartFunction(g, d).scopes == [map[]]
    {
    }

    lemma InBody(g: Gen, d: FunctionDef)
      ensures var h := BodyStart(g, d); Ready(h, NextLabel(g)) && h.cur < |h.code.fns| && h.scopes != []
    {
      ShapeStartFunction(g, d);
      ShapeBody(g, d);
      ParamScopes(StartFunction(g, d), d.params);
    }

    lemma {:induction false} ParamScopes(g: Gen, ps: seq<Param>)
      requires g.scopes != []
      ensures LowerParams(g, ps).scopes != []
      decreases ps
    {
      if ps != [] {
        ParamScopes(g, ps[..|ps| - 1]);
      }
    }

    /** All functions, in order; a failure does not stop the loop. */
    method VisitProgram(p: Program)
      requires State() == EMPTY_GEN
      modifies this, builder, scopeStack
      ensures Visited(LowerProgram(p))
    {
      assert p[..0] == [];
      for i := 0 to |p|
        invariant State() == LowerProgram(p[..i]) && (isSuccess ==> old(isSuccess))
        invariant if isSuccess then operands == old(operands) else old(operands) <= operands
      {
        hide LowerFunction;
        assert p[..i + 1][..i] == p[..i];
        VisitFunctionDef(p[i]);
      }
      assert p[..|p|] == p;
    }
  }

  /** Generate the code of a program. */
  method Generate(p: Program) returns (code: Code, ok: bool)
    ensures code == LowerProgram(p).code && ok == LowerProgram(p).ok
    ensures ok ==> WellFormed(code)
  {
    var g := new Codegen();
    g.VisitProgram(p);
    code, ok := g.builder.code, g.isSuccess;
    if ok {
      ProgramWellFormed(p);
    }
  }
}
