/** The emitted code: functions cut into basic blocks over typed virtual registers, and a machine
    that runs it one instruction at a time with a call stack and stack cells (`Alloca`). */
module Ir {
  import opened Wrappers
  import opened Values

  /** `PtrTo` records the type of the cell an `Alloca` made. */
  datatype LType = I1 | I32T | F32T | F64T | PtrTo(cell: LType)

  datatype Operand =
    | CBool(b: bool)
    | CInt(n: I32)
    | CFloat(f: F32)
    | Reg(r: nat)
    | Arg(i: nat)

  datatype UnInstr = NegI | NegF | NotI | ZExtI | CastTo(to: LType)

  datatype BinInstr =
    | AddI | SubI | MulI | UDivI | FAddI | FSubI | FMulI | FDivI
    | ICmpEq | ICmpNe | ICmpSgt | ICmpSlt | ICmpSge | ICmpSle
    | FCmpOeq | FCmpOne | FCmpOgt | FCmpOlt | FCmpOge | FCmpOle

  datatype Instr =
    | Alloca(dst: nat, ty: LType)
    | Load(dst: nat, ty: LType, ptr: nat)
    | Store(v: Operand, ptr: nat)
    | Op1(dst: nat, un: UnInstr, a: Operand)
    | Op2(dst: nat, bin: BinInstr, a: Operand, b: Operand)
    | CallFn(dst: nat, fn: nat, args: seq<Operand>)
    | FPExt(dst: nat, a: Operand)
    | PrintI32(a: Operand)      // printf with "%d"
    | PrintF64(r: nat)          // printf with "%f"
    | Br(target: nat)
    | CondBr(c: Operand, ifTrue: nat, ifFalse: nat)
    | Ret(a: Operand)
    | Unreachable
  {
    predicate IsTerminator() { Br? || CondBr? || Ret? || Unreachable? }

    function Targets(): set<nat> {
      if Br? then {target} else if CondBr? then {ifTrue, ifFalse} else {}
    }
  }

  /** `parent` is the function the block has been inserted into, if any. */
  datatype BasicBlock = BasicBlock(code: seq<Instr>, parent: Option<nat>)

  datatype Fn = Fn(name: string, params: seq<LType>, ret: LType, entry: nat)

  /** Registers and labels are indices, unique over the whole module. */
  datatype Code = Code(blocks: seq<BasicBlock>, regs: seq<LType>, fns: seq<Fn>)

  predicate Terminated(code: seq<Instr>) {
    code != [] && code[|code| - 1].IsTerminator()
  }

  function TypeOfVal(v: Val): LType {
    match v
    case BoolV(_) => I1
    case IntV(_) => I32T
    case FloatV(_) => F32T
  }

  // ----- the machine -----

  datatype RegVal = Data(v: Val) | Wide(d: F64) | Pointer(cell: nat)

  /** `dst` is the caller's register that receives the result; `trail` lists the blocks jumped to,
      which no instruction reads. */
  datatype Frame = Frame(
    lbl: nat, pc: nat, regs: map<nat, RegVal>, args: seq<Val>, cells: seq<Option<Val>>, dst: nat, trail: seq<nat>)

  datatype Fault =
    | DivisionByZero
    | TypeMismatch      // an instruction was given a value of another type
    | BadRegister       // a register was read before it was written
    | BadCell           // a cell was read before it was written
    | BadCode           // control left the code: no such block, function, argument or instruction

  datatype Status = Running | Finished(v: Val) | ReachedUnreachable | Faulted(f: Fault)

  datatype State = State(cur: Frame, callers: seq<Frame>, out: seq<Event>, status: Status)

  datatype Fetched = Got(v: Val) | Missing(f: Fault)

  function Fetch(fr: Frame, op: Operand): Fetched {
    match op
    case CBool(b) => Got(BoolV(b))
    case CInt(n) => Got(IntV(n))
    case CFloat(f) => Got(FloatV(f))
    case Arg(i) => if i < |fr.args| then Got(fr.args[i]) else Missing(BadCode)
    case Reg(r) =>
      if r !in fr.regs then Missing(BadRegister)
      else if !fr.regs[r].Data? then Missing(TypeMismatch)
      else Got(fr.regs[r].v)
  }

  datatype FetchedAll = GotAll(vs: seq<Val>) | MissingOne(f: Fault)

  function FetchAll(fr: Frame, ops: seq<Operand>): FetchedAll {
    if ops == [] then GotAll([])
    else
      match Fetch(fr, ops[0])
      case Missing(f) => MissingOne(f)
      case Got(v) =>
        match FetchAll(fr, ops[1..])
        case MissingOne(f) => MissingOne(f)
        case GotAll(vs) => GotAll([v] + vs)
  }

  function Cast(ops: FloatOps, v: Val, to: LType): Fetched {
    match (to, v)
    case (I1, IntV(n)) => Got(BoolV(n % 2 == 1))
    case (I1, FloatV(f)) => Got(BoolV(ops.toBool(f)))
    case (I32T, BoolV(b)) => Got(IntV(if b then -1 else 0))
    case (I32T, FloatV(f)) => Got(IntV(ops.toInt(f)))
    case (F32T, BoolV(b)) => Got(FloatV(ops.ofInt(if b then -1 else 0)))
    case (F32T, IntV(n)) => Got(FloatV(ops.ofInt(n)))
    case (_, _) => Missing(TypeMismatch)
  }

  function RunOp1(ops: FloatOps, op: UnInstr, v: Val): Fetched {
    match (op, v)
    case (NegI, IntV(n)) => Got(IntV(Wrap32(0 - n)))
    case (NegF, FloatV(f)) => Got(FloatV(ops.neg(f)))
    case (NotI, BoolV(b)) => Got(BoolV(!b))
    case (ZExtI, BoolV(b)) => Got(IntV(if b then 1 else 0))
    case (CastTo(t), _) => Cast(ops, v, t)
    case (_, _) => Missing(TypeMismatch)
  }

  function RunOp2(ops: FloatOps, op: BinInstr, a: Val, b: Val): Fetched {
    match (a, b)
    case (IntV(m), IntV(n)) =>
      (match op
       case AddI => Got(IntV(Wrap32(m + n)))
       case SubI => Got(IntV(Wrap32(m - n)))
       case MulI => Got(IntV(Wrap32(m * n)))
       case UDivI => if n == 0 then Missing(DivisionByZero) else Got(IntV(UnsignedDiv(m, n)))
       case ICmpEq => Got(BoolV(m == n))
       case ICmpNe => Got(BoolV(m != n))
       case ICmpSgt => Got(BoolV(m > n))
       case ICmpSlt => Got(BoolV(m < n))
       case ICmpSge => Got(BoolV(m >= n))
       case ICmpSle => Got(BoolV(m <= n))
       case _ => Missing(TypeMismatch))
    case (FloatV(x), FloatV(y)) =>
      (match op
       case FAddI => Got(FloatV(ops.add(x, y)))
       case FSubI => Got(FloatV(ops.sub(x, y)))
       case FMulI => Got(FloatV(ops.mul(x, y)))
       case FDivI => Got(FloatV(ops.div(x, y)))
       case FCmpOeq => Got(BoolV(ops.eq(x, y)))
       case FCmpOne => Got(BoolV(ops.ne(x, y)))
       case FCmpOgt => Got(BoolV(ops.gt(x, y)))
       case FCmpOlt => Got(BoolV(ops.lt(x, y)))
       case FCmpOge => Got(BoolV(ops.ge(x, y)))
       case FCmpOle => Got(BoolV(ops.le(x, y)))
       case _ => Missing(TypeMismatch))
    case (BoolV(p), BoolV(q)) =>
      (match op
       case ICmpEq => Got(BoolV(p == q))
       case ICmpNe => Got(BoolV(p != q))
       case _ => Missing(TypeMismatch))
    case (_, _) => Missing(TypeMismatch)
  }

  /** A register holding a pointer to an existing cell. */
  predicate PointsToCell(fr: Frame, r: nat) {
    r in fr.regs && fr.regs[r].Pointer? && fr.regs[r].cell < |fr.cells|
  }

  function Fail(s: State, f: Fault): State {
    s.(status := Faulted(f))
  }

  function Jump(s: State, l: nat): State {
    s.(cur := s.cur.(lbl := l, pc := 0, trail := s.cur.trail + [l]))
  }

  /** Write register `dst` and go to the next instruction. */
  function SetReg(fr: Frame, dst: nat, v: RegVal): Frame {
    fr.(regs := fr.regs[dst := v], pc := fr.pc + 1)
  }

  function Define(s: State, dst: nat, x: Fetched): State {
    match x
    case Missing(f) => Fail(s, f)
    case Got(v) => s.(cur := SetReg(s.cur, dst, Data(v)))
  }

  function Write(s: State, e: Event): State {
    s.(cur := s.cur.(pc := s.cur.pc + 1), out := s.out + [e])
  }

  function Perform(c: Code, ops: FloatOps, s: State, i: Instr): State {
    match i
    case Alloca(dst, _) =>
      s.(cur := SetReg(s.cur, dst, Pointer(|s.cur.cells|)).(cells := s.cur.cells + [None]))
    case Load(dst, ty, ptr) =>
      if !PointsToCell(s.cur, ptr) then Fail(s, BadRegister)
      else
        (match s.cur.cells[s.cur.regs[ptr].cell]
         case None => Fail(s, BadCell)
         case Some(v) => if TypeOfVal(v) == ty then Define(s, dst, Got(v)) else Fail(s, TypeMismatch))
    case Store(v, ptr) =>
      (match Fetch(s.cur, v)
       case Missing(f) => Fail(s, f)
       case Got(x) =>
         if !PointsToCell(s.cur, ptr) then Fail(s, BadRegister)
         else s.(cur := s.cur.(cells := s.cur.cells[s.cur.regs[ptr].cell := Some(x)], pc := s.cur.pc + 1)))
    case Op1(dst, op, a) =>
      (match Fetch(s.cur, a)
       case Missing(f) => Fail(s, f)
       case Got(x) => Define(s, dst, RunOp1(ops, op, x)))
    case Op2(dst, op, a, b) =>
      (match Fetch(s.cur, a)
       case Missing(f) => Fail(s, f)
       case Got(x) =>
         match Fetch(s.cur, b)
         case Missing(f) => Fail(s, f)
         case Got(y) => Define(s, dst, RunOp2(ops, op, x, y)))
    case CallFn(dst, fn, args) =>
      (match FetchAll(s.cur, args)
       case MissingOne(f) => Fail(s, f)
       case GotAll(vs) =>
         if fn >= |c.fns| then Fail(s, BadCode)
         else State(
             Frame(c.fns[fn].entry, 0, map[], vs, [], dst, []),
             [s.cur.(pc := s.cur.pc + 1)] + s.callers, s.out, Running))
    case FPExt(dst, a) =>
      (match Fetch(s.cur, a)
       case Missing(f) => Fail(s, f)
       case Got(x) =>
         if x.FloatV? then s.(cur := SetReg(s.cur, dst, Wide(ops.extend(x.f)))) else Fail(s, TypeMismatch))
    case PrintI32(a) =>
      (match Fetch(s.cur, a)
       case Missing(f) => Fail(s, f)
       case Got(x) => if x.IntV? then Write(s, PrintInt(x.n)) else Fail(s, TypeMismatch))
    case PrintF64(r) =>
      if r !in s.cur.regs then Fail(s, BadRegister)
      else if s.cur.regs[r].Wide? then Write(s, PrintDouble(s.cur.regs[r].d))
      else Fail(s, TypeMismatch)
    case Br(l) => Jump(s, l)
    case CondBr(x, l, r) =>
      (match Fetch(s.cur, x)
       case Missing(f) => Fail(s, f)
       case Got(v) =>
         if v.BoolV? then Jump(s, if v.b then l else r) else Fail(s, TypeMismatch))
    case Ret(a) =>
      (match Fetch(s.cur, a)
       case Missing(f) => Fail(s, f)
       case Got(v) => PopFrame(s, v))
    case Unreachable => s.(status := ReachedUnreachable)
  }

  function PopFrame(s: State, v: Val): State {
    if s.callers == [] then s.(status := Finished(v))
    else
      var caller := s.callers[0];
      State(caller.(regs := caller.regs[s.cur.dst := Data(v)]), s.callers[1..], s.out, Running)
  }

  predicate HasInstr(c: Code, fr: Frame) {
    fr.lbl < |c.blocks| && fr.pc < |c.blocks[fr.lbl].code|
  }

  function Step(c: Code, ops: FloatOps, s: State): State {
    if !s.status.Running? then s
    else if HasInstr(c, s.cur) then Perform(c, ops, s, c.blocks[s.cur.lbl].code[s.cur.pc])
    else Fail(s, BadCode)
  }

  function Run(c: Code, ops: FloatOps, s: State, n: nat): State
    decreases n
  {
    if n == 0 then s else Run(c, ops, Step(c, ops, s), n - 1)
  }

  lemma {:induction false} RunTwice(c: Code, ops: FloatOps, s: State, m: nat, n: nat)
    ensures Run(c, ops, s, m + n) == Run(c, ops, Run(c, ops, s, m), n)
    decreases m
  {
    if m > 0 {
      RunTwice(c, ops, Step(c, ops, s), m - 1, n);
    }
  }

  lemma {:induction false} StoppedStays(c: Code, ops: FloatOps, s: State, n: nat)
    requires !s.status.Running?
    ensures Run(c, ops, s, n) == s
    decreases n
  {
    if n > 0 {
      StoppedStays(c, ops, s, n - 1);
    }
  }

  /** A machine that runs after `n` steps ran at every earlier one; one that stopped stays so. */
  lemma RunningBefore(c: Code, ops: FloatOps, s: State, m: nat, n: nat)
    requires m <= n
    ensures Run(c, ops, s, n).status.Running? ==> Run(c, ops, s, m).status.Running?
    ensures !Run(c, ops, s, m).status.Running? ==> Run(c, ops, s, n) == Run(c, ops, s, m)
  {
    RunTwice(c, ops, s, m, n - m);
    if !Run(c, ops, s, m).status.Running? {
      StoppedStays(c, ops, Run(c, ops, s, m), n - m);
    }
  }
}
