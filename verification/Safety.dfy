/** What the rules on emitted code are for, shown on the machine itself: code that keeps the type
    rules, whose blocks are well formed and whose paths write before they read, never goes wrong.
    Nothing here is about the translation: it holds of any code. */
module Safety {
  import opened Wrappers
  import opened Values
  import opened Ir
  import opened FlowGraph
  import opened Paths
  import opened Typing

  // ----- what is true of a frame -----

  /** What the facts mean: the register has a value, it points to a cell, that cell has a value. */
  predicate True(fr: Frame, f: Fact) {
    match f
    case Written(r) => r in fr.regs
    case Allocated(r) => PointsToCell(fr, r)
    case Stored(r) => PointsToCell(fr, r) && fr.cells[fr.regs[r].cell].Some?
  }

  predicate AllTrue(fr: Frame, facts: set<Fact>) {
    forall f :: f in facts ==> True(fr, f)
  }

  predicate CellTyped(cell: Option<Val>, t: LType) {
    cell.Some? ==> TypeOfVal(cell.value) == t
  }

  predicate RegTyped(c: Code, fr: Frame, r: nat)
    requires r in fr.regs
  {
    && r < |c.regs|
    && match fr.regs[r]
       case Data(v) => TypeOfVal(v) == c.regs[r]
       case Wide(_) => c.regs[r] == F64T
       case Pointer(n) => c.regs[r].PtrTo? && IsData(c.regs[r].cell) && n < |fr.cells| && CellTyped(fr.cells[n], c.regs[r].cell)
  }

  /** No two registers point to one cell. */
  predicate Unshared(fr: Frame) {
    forall r, q :: r in fr.regs && q in fr.regs && r != q && fr.regs[r].Pointer? && fr.regs[q].Pointer? ==>
      fr.regs[r].cell != fr.regs[q].cell
  }

  predicate ArgsHaveTypes(vs: seq<Val>, ts: seq<LType>) {
    |vs| == |ts| && forall k :: 0 <= k < |vs| ==> TypeOfVal(vs[k]) == ts[k]
  }

  predicate FrameTyped(c: Code, f: nat, fr: Frame) {
    f < |c.fns| && ArgsHaveTypes(fr.args, c.fns[f].params) && (forall r :: r in fr.regs ==> RegTyped(c, fr, r)) && Unshared(fr)
  }

  // ----- one instruction that stays in its block -----

  lemma FetchTyped(c: Code, f: nat, fr: Frame, op: Operand, t: LType)
    requires FrameTyped(c, f, fr) && AllTrue(fr, Needs(op)) && TypeOf(c, c.fns[f].params, op) == Some(t) && IsData(t)
    ensures var x := Fetch(fr, op); x.Got? && TypeOfVal(x.v) == t
  {
    if op.Reg? {
      assert True(fr, Written(op.r));
      assert RegTyped(c, fr, op.r);
    }
  }

  lemma {:induction false} FetchAllTyped(c: Code, f: nat, fr: Frame, ops: seq<Operand>, ts: seq<LType>)
    requires FrameTyped(c, f, fr) && AllTrue(fr, NeedsAll(ops)) && |ops| == |ts|
    requires forall k :: 0 <= k < |ops| ==> TypeOf(c, c.fns[f].params, ops[k]) == Some(ts[k]) && IsData(ts[k])
    ensures var x := FetchAll(fr, ops); x.GotAll? && ArgsHaveTypes(x.vs, ts)
    decreases ops
  {
    hide FrameTyped, True, TypeOf;
    if ops != [] {
      FetchTyped(c, f, fr, ops[0], ts[0]);
      FetchAllTyped(c, f, fr, ops[1..], ts[1..]);
      var vs := FetchAll(fr, ops).vs;
      assert forall k :: 0 < k < |ts| ==> vs[k] == vs[1..][k - 1] && ts[k] == ts[1..][k - 1];
    }
  }

  /** A register that points nowhere gets a value. */
  lemma SetTyped(c: Code, f: nat, fr: Frame, dst: nat, v: RegVal)
    requires FrameTyped(c, f, fr) && dst < |c.regs|
    requires (v.Data? && TypeOfVal(v.v) == c.regs[dst]) || (v.Wide? && c.regs[dst] == F64T)
    ensures FrameTyped(c, f, SetReg(fr, dst, v))
  {
    var h := SetReg(fr, dst, v);
    forall r | r in h.regs ensures RegTyped(c, h, r) {
      assert r != dst ==> RegTyped(c, fr, r);
    }
  }

  lemma SetTrue(fr: Frame, dst: nat, v: RegVal, facts: set<Fact>)
    requires AllTrue(fr, facts)
    ensures AllTrue(SetReg(fr, dst, v), Overwritten(facts, dst))
  {
    var h := SetReg(fr, dst, v);
    forall x | x in Overwritten(facts, dst) ensures True(h, x) {
      assert x in facts || x == Written(dst);
      assert x in facts ==> True(fr, x);
    }
  }

  lemma AllocaSafe(c: Code, f: nat, fr: Frame, dst: nat, t: LType, facts: set<Fact>)
    requires FrameTyped(c, f, fr) && AllTrue(fr, facts) && Defines(c, dst, PtrTo(t)) && IsData(t)
    ensures var h := SetReg(fr, dst, Pointer(|fr.cells|)).(cells := fr.cells + [None]);
      FrameTyped(c, f, h) && AllTrue(h, AfterInstr(facts, Alloca(dst, t)))
  {
    var h := SetReg(fr, dst, Pointer(|fr.cells|)).(cells := fr.cells + [None]);
    forall r | r in h.regs ensures RegTyped(c, h, r) {
      assert r != dst ==> RegTyped(c, fr, r);
    }
    forall r, q | r in h.regs && q in h.regs && r != q && h.regs[r].Pointer? && h.regs[q].Pointer?
      ensures h.regs[r].cell != h.regs[q].cell
    {
      assert r != dst ==> RegTyped(c, fr, r);
      assert q != dst ==> RegTyped(c, fr, q);
    }
    forall x | x in AfterInstr(facts, Alloca(dst, t)) ensures True(h, x) {
      assert x in facts ==> True(fr, x);
    }
  }

  lemma StoreSafe(c: Code, f: nat, fr: Frame, ptr: nat, v: Val, facts: set<Fact>)
    requires FrameTyped(c, f, fr) && AllTrue(fr, facts) && PointsToCell(fr, ptr) && c.regs[ptr] == PtrTo(TypeOfVal(v))
    ensures var h := fr.(cells := fr.cells[fr.regs[ptr].cell := Some(v)], pc := fr.pc + 1);
      FrameTyped(c, f, h) && AllTrue(h, facts + {Stored(ptr)})
  {
    var h := fr.(cells := fr.cells[fr.regs[ptr].cell := Some(v)], pc := fr.pc + 1);
    forall r | r in h.regs ensures RegTyped(c, h, r) {
      assert RegTyped(c, fr, r);
    }
    forall x | x in facts + {Stored(ptr)} ensures True(h, x) {
      assert x in facts ==> True(fr, x);
    }
  }

  lemma TypedOp1Runs(ops: FloatOps, op: UnInstr, v: Val, t: LType)
    requires TypedOp1(op, TypeOfVal(v), t)
    ensures var x := RunOp1(ops, op, v); x.Got? && TypeOfVal(x.v) == t
  {
  }

  lemma TypedOp2Runs(ops: FloatOps, op: BinInstr, a: Val, b: Val, t: LType)
    requires TypeOfVal(a) == TypeOfVal(b) && TypedOp2(op, TypeOfVal(a), t)
    ensures var x := RunOp2(ops, op, a, b);
      if x.Got? then TypeOfVal(x.v) == t else x.f == DivisionByZero && op.UDivI? && b == IntV(0)
  {
  }

  predicate Straight(i: Instr) { !i.IsTerminator() && !i.CallFn? }

  /** The machine went on to the next instruction, and everything that should be true is. */
  ghost predicate WentOn(c: Code, f: nat, s: State, t: State, facts: set<Fact>) {
    && t.status.Running? && t.callers == s.callers
    && t.cur.lbl == s.cur.lbl && t.cur.pc == s.cur.pc + 1 && t.cur.dst == s.cur.dst
    && FrameTyped(c, f, t.cur) && AllTrue(t.cur, facts)
  }

  /** All that is known before an instruction. */
  ghost predicate Ready(c: Code, f: nat, s: State, i: Instr, facts: set<Fact>) {
    && FrameTyped(c, f, s.cur) && AllTrue(s.cur, facts) && Uses(i) <= facts && s.status.Running?
    && TypedInstr(c, c.fns[f].params, c.fns[f].ret, i)
  }

  lemma MemorySafe(c: Code, ops: FloatOps, f: nat, s: State, i: Instr, facts: set<Fact>)
    requires Ready(c, f, s, i, facts) && (i.Alloca? || i.Load? || i.Store?)
    ensures WentOn(c, f, s, Perform(c, ops, s, i), AfterInstr(facts, i))
  {
    match i
    case Alloca(dst, t) => AllocaSafe(c, f, s.cur, dst, t, facts);
    case Load(dst, t, ptr) =>
      assert True(s.cur, Allocated(ptr)) && True(s.cur, Stored(ptr)) && RegTyped(c, s.cur, ptr);
      var v := s.cur.cells[s.cur.regs[ptr].cell].value;
      SetTyped(c, f, s.cur, dst, Data(v));
      SetTrue(s.cur, dst, Data(v), facts);
    case Store(v, ptr) =>
      assert True(s.cur, Allocated(ptr)) && RegTyped(c, s.cur, ptr);
      FetchTyped(c, f, s.cur, v, c.regs[ptr].cell);
      StoreSafe(c, f, s.cur, ptr, Fetch(s.cur, v).v, facts);
  }

  lemma OperatorSafe(c: Code, ops: FloatOps, f: nat, s: State, i: Instr, facts: set<Fact>)
    requires Ready(c, f, s, i, facts) && (i.Op1? || i.Op2?)
    ensures var t := Perform(c, ops, s, i); t.status == Faulted(DivisionByZero) || WentOn(c, f, s, t, AfterInstr(facts, i))
  {
    hide RunOp1, RunOp2, TypedOp1, TypedOp2;
    DataOperands(c, f, i);
    var p := c.fns[f].params;
    FetchTyped(c, f, s.cur, i.a, TypeOf(c, p, i.a).value);
    var a := Fetch(s.cur, i.a).v;
    var x: Fetched;
    if i.Op1? {
      TypedOp1Runs(ops, i.un, a, c.regs[i.dst]);
      x := RunOp1(ops, i.un, a);
    } else {
      FetchTyped(c, f, s.cur, i.b, TypeOf(c, p, i.b).value);
      TypedOp2Runs(ops, i.bin, a, Fetch(s.cur, i.b).v, c.regs[i.dst]);
      x := RunOp2(ops, i.bin, a, Fetch(s.cur, i.b).v);
    }
    if x.Got? {
      SetTyped(c, f, s.cur, i.dst, Data(x.v));
      SetTrue(s.cur, i.dst, Data(x.v), facts);
    }
  }

  lemma DataOperands(c: Code, f: nat, i: Instr)
    requires f < |c.fns| && (i.Op1? || i.Op2?) && TypedInstr(c, c.fns[f].params, c.fns[f].ret, i)
    ensures TypeOf(c, c.fns[f].params, i.a).Some? && IsData(TypeOf(c, c.fns[f].params, i.a).value)
  {
  }

  lemma OutputSafe(c: Code, ops: FloatOps, f: nat, s: State, i: Instr, facts: set<Fact>)
    requires Ready(c, f, s, i, facts) && (i.FPExt? || i.PrintI32? || i.PrintF64?)
    ensures WentOn(c, f, s, Perform(c, ops, s, i), AfterInstr(facts, i))
  {
    match i
    case FPExt(dst, a) =>
      FetchTyped(c, f, s.cur, a, F32T);
      var w := Wide(ops.extend(Fetch(s.cur, a).v.f));
      SetTyped(c, f, s.cur, dst, w);
      SetTrue(s.cur, dst, w, facts);
    case PrintI32(a) =>
      FetchTyped(c, f, s.cur, a, I32T);
      NextSame(c, f, s.cur, facts);
    case PrintF64(r) =>
      assert True(s.cur, Written(r)) && RegTyped(c, s.cur, r);
      NextSame(c, f, s.cur, facts);
  }

  lemma NextSame(c: Code, f: nat, fr: Frame, facts: set<Fact>)
    requires FrameTyped(c, f, fr) && AllTrue(fr, facts)
    ensures var h := fr.(pc := fr.pc + 1); FrameTyped(c, f, h) && AllTrue(h, facts)
  {
    var h := fr.(pc := fr.pc + 1);
    assert forall r :: r in h.regs ==> RegTyped(c, fr, r) && RegTyped(c, h, r);
    assert forall x :: x in facts ==> True(fr, x) && True(h, x);
  }

  lemma StraightSafe(c: Code, ops: FloatOps, f: nat, s: State, i: Instr, facts: set<Fact>)
    requires Ready(c, f, s, i, facts) && Straight(i)
    ensures var t := Perform(c, ops, s, i); t.status == Faulted(DivisionByZero) || WentOn(c, f, s, t, AfterInstr(facts, i))
  {
    hide Ready, WentOn, Perform, AfterInstr;
    if i.Alloca? || i.Load? || i.Store? {
      MemorySafe(c, ops, f, s, i, facts);
    } else if i.Op1? || i.Op2? {
      OperatorSafe(c, ops, f, s, i, facts);
    } else {
      OutputSafe(c, ops, f, s, i, facts);
    }
  }

  // ----- frames in their functions -----

  /** The frame has come along this path from the entry of its function. */
  ghost predicate Came(c: Code, f: nat, fr: Frame, path: seq<nat>) {
    && f < |c.fns| && path != [] && path[0] == c.fns[f].entry && Path(c, path) && path[|path| - 1] == fr.lbl
    && fr.lbl < |c.blocks| && fr.pc < |c.blocks[fr.lbl].code|
  }

  /** The instructions it has met. */
  ghost function Past(c: Code, f: nat, fr: Frame, path: seq<nat>): seq<Instr>
    requires Came(c, f, fr, path)
  {
    Trace(c, path[..|path| - 1]) + c.blocks[fr.lbl].code[..fr.pc]
  }

  ghost predicate CameSafely(c: Code, f: nat, fr: Frame, path: seq<nat>) {
    Came(c, f, fr, path) && AllTrue(fr, Flow({}, Past(c, f, fr, path)))
  }

  ghost predicate FrameSafe(c: Code, f: nat, fr: Frame) {
    FrameTyped(c, f, fr) && exists path :: CameSafely(c, f, fr, path)
  }

  /** Whatever value of type `t` the call gives it in `dst`, the frame can go on. */
  ghost predicate Resumable(c: Code, f: nat, fr: Frame, dst: nat, t: LType) {
    forall v :: TypeOfVal(v) == t ==> FrameSafe(c, f, fr.(regs := fr.regs[dst := Data(v)]))
  }

  /** Each caller can go on with what the function it has called returns; the last one called returns
      a value of type `end`. */
  ghost predicate Awaited(c: Code, t: LType, dst: nat, callers: seq<Frame>, end: LType)
    decreases callers
  {
    if callers == [] then t == end
    else exists f: nat :: ResumedBy(c, f, t, dst, callers, end)
  }

  ghost predicate ResumedBy(c: Code, f: nat, t: LType, dst: nat, callers: seq<Frame>, end: LType)
    requires callers != []
    decreases callers, 0
  {
    f < |c.fns| && Resumable(c, f, callers[0], dst, t) && Awaited(c, c.fns[f].ret, callers[0].dst, callers[1..], end)
  }

  ghost predicate StackSafe(c: Code, f: nat, s: State, end: LType) {
    FrameSafe(c, f, s.cur) && Awaited(c, c.fns[f].ret, s.cur.dst, s.callers, end)
  }

  /** The machine has not gone wrong, and will not at the next step. */
  ghost predicate Safe(c: Code, s: State, end: LType) {
    match s.status
    case Running => exists f: nat :: StackSafe(c, f, s, end)
    case Finished(v) => TypeOfVal(v) == end
    case Faulted(e) => e == DivisionByZero
    case ReachedUnreachable => true
  }

  /** Along every path through every function what is used has been written, allocated and stored to. */
  ghost predicate PathsInitialised(c: Code) {
    forall f: nat :: f < |c.fns| ==> FunctionInitialised(c, f)
  }

  ghost predicate FunctionInitialised(c: Code, f: nat) {
    forall path :: PathFrom(c, f, path) ==> UsesAfterDefs(Trace(c, path))
  }

  ghost predicate PathFrom(c: Code, f: nat, path: seq<nat>) {
    f < |c.fns| && path != [] && path[0] == c.fns[f].entry && Path(c, path)
  }

  /** All that the rules promise. */
  ghost predicate Sound(c: Code) { WellFormed(c) && TypedCode(c) && PathsInitialised(c) }

  // ----- one step -----

  function InstrAt(c: Code, fr: Frame): Instr
    requires HasInstr(c, fr)
  {
    c.blocks[fr.lbl].code[fr.pc]
  }

  lemma TraceStep(c: Code, path: seq<nat>, k: nat)
    requires path != [] && (forall j :: 0 <= j < |path| ==> path[j] < |c.blocks|) && k <= |c.blocks[path[|path| - 1]].code|
    ensures var before, code := Trace(c, path[..|path| - 1]), c.blocks[path[|path| - 1]].code;
      Trace(c, path)[..|before| + k] == before + code[..k] && Trace(c, path) == before + code
  {
    var before, code := Trace(c, path[..|path| - 1]), c.blocks[path[|path| - 1]].code;
    assert (before + code)[..|before| + k] == before + code[..k];
  }

  /** What the next instruction uses is known. */
  lemma UsesKnown(c: Code, f: nat, fr: Frame, path: seq<nat>)
    requires PathsInitialised(c) && Came(c, f, fr, path)
    ensures Uses(InstrAt(c, fr)) <= Flow({}, Past(c, f, fr, path))
  {
    hide Uses, Happened, Flow, Trace, UsesAfterDefs;
    assert FunctionInitialised(c, f) && PathFrom(c, f, path);
    TraceStep(c, path, fr.pc);
    var before, ts := Trace(c, path[..|path| - 1]), Trace(c, path);
    var k := |before| + fr.pc;
    assert ts[k] == InstrAt(c, fr);
    forall x | x in Uses(InstrAt(c, fr)) ensures x in Flow({}, Past(c, f, fr, path)) {
      UsedHappened(ts, k, x);
      FlowMeans(ts[..k], x);
    }
  }

  lemma UsedHappened(ts: seq<Instr>, k: nat, x: Fact)
    requires UsesAfterDefs(ts) && k < |ts| && x in Uses(ts[k])
    ensures Happened(ts[..k], x)
  {
    hide Uses, Happened;
  }

  lemma FrameReady(c: Code, f: nat, s: State) returns (path: seq<nat>)
    requires Sound(c) && FrameSafe(c, f, s.cur) && s.status.Running?
    ensures CameSafely(c, f, s.cur, path) && HasInstr(c, s.cur)
    ensures Ready(c, f, s, InstrAt(c, s.cur), Flow({}, Past(c, f, s.cur, path)))
  {
    hide Uses, Flow, TypedInstr, PathsInitialised, FrameTyped, True, WellFormedBlock, Past;
    path :| CameSafely(c, f, s.cur, path);
    UsesKnown(c, f, s.cur, path);
    StaysInFunction(c, f, path);
    assert TypedBlock(c, s.cur.lbl);
  }

  lemma {:induction false} StaysInFunction(c: Code, f: nat, path: seq<nat>)
    requires WellFormed(c) && PathFrom(c, f, path)
    ensures c.blocks[path[|path| - 1]].parent == Some(f)
    decreases path
  {
    var n := |path| - 1;
    if n > 0 {
      StaysInFunction(c, f, path[..n]);
      var m := path[n - 1];
      assert path[n] in Successors(c, m);
      assert WellFormedBlock(c, m);
      assert StaysInside(c, c.blocks[m].code[|c.blocks[m].code| - 1], Some(f));
    }
  }

  /** One instruction further in the same block. */
  lemma CameOn(c: Code, f: nat, fr: Frame, h: Frame, path: seq<nat>)
    requires WellFormed(c) && Came(c, f, fr, path) && h.lbl == fr.lbl && h.pc == fr.pc + 1 && !InstrAt(c, fr).IsTerminator()
    ensures Came(c, f, h, path)
    ensures Flow({}, Past(c, f, h, path)) == AfterInstr(Flow({}, Past(c, f, fr, path)), InstrAt(c, fr))
  {
    hide Flow, AfterInstr, Trace;
    var code := c.blocks[fr.lbl].code;
    assert WellFormedBlock(c, fr.lbl);
    assert code[..fr.pc + 1] == code[..fr.pc] + [code[fr.pc]];
    FlowSnoc({}, Past(c, f, fr, path), code[fr.pc]);
    assert Past(c, f, h, path) == Past(c, f, fr, path) + [code[fr.pc]];
  }

  lemma OnwardSafe(c: Code, f: nat, fr: Frame, h: Frame, path: seq<nat>)
    requires WellFormed(c) && Came(c, f, fr, path) && h.lbl == fr.lbl && h.pc == fr.pc + 1 && !InstrAt(c, fr).IsTerminator()
    requires FrameTyped(c, f, h) && AllTrue(h, AfterInstr(Flow({}, Past(c, f, fr, path)), InstrAt(c, fr)))
    ensures FrameSafe(c, f, h)
  {
    hide Flow, AfterInstr, Past, WellFormed, FrameTyped, Came, AllTrue;
    CameOn(c, f, fr, h, path);
    assert CameSafely(c, f, h, path);
  }

  /** A jump to a block of the function. */
  lemma JumpSafe(c: Code, f: nat, fr: Frame, path: seq<nat>, l: nat, trail: seq<nat>)
    requires WellFormed(c) && CameSafely(c, f, fr, path) && FrameTyped(c, f, fr) && l in InstrAt(c, fr).Targets()
    ensures FrameSafe(c, f, fr.(lbl := l, pc := 0, trail := trail))
  {
    hide Flow, FrameTyped, True, Trace;
    var h, code, longer := fr.(lbl := l, pc := 0, trail := trail), c.blocks[fr.lbl].code, path + [l];
    assert WellFormedBlock(c, fr.lbl) && fr.pc == |code| - 1;
    assert StaysInside(c, code[fr.pc], c.blocks[fr.lbl].parent);
    assert WellFormedBlock(c, l);
    assert longer[..|path|] == path;
    assert Came(c, f, h, longer);
    TraceStep(c, path, |code|);
    assert code == code[..fr.pc] + [code[fr.pc]];
    assert Past(c, f, h, longer) == Past(c, f, fr, path) + [code[fr.pc]];
    FlowSnoc({}, Past(c, f, fr, path), code[fr.pc]);
    assert AfterInstr(Flow({}, Past(c, f, fr, path)), code[fr.pc]) == Flow({}, Past(c, f, fr, path));
    SameButPlace(c, f, fr, h, Flow({}, Past(c, f, fr, path)));
    assert CameSafely(c, f, h, longer);
  }

  lemma SameButPlace(c: Code, f: nat, fr: Frame, h: Frame, facts: set<Fact>)
    requires FrameTyped(c, f, fr) && AllTrue(fr, facts)
    requires h.regs == fr.regs && h.cells == fr.cells && h.args == fr.args
    ensures FrameTyped(c, f, h) && AllTrue(h, facts)
  {
    assert forall r :: r in h.regs ==> RegTyped(c, fr, r) && RegTyped(c, h, r);
    assert forall x :: x in facts ==> True(fr, x) && True(h, x);
  }

  /** A function that is called, with arguments of its types. */
  lemma EntrySafe(c: Code, f: nat, fr: Frame)
    requires WellFormed(c) && f < |c.fns| && fr.lbl == c.fns[f].entry && fr.pc == 0 && fr.regs == map[]
    requires ArgsHaveTypes(fr.args, c.fns[f].params)
    ensures FrameSafe(c, f, fr)
  {
    var path := [fr.lbl];
    assert WellFormedBlock(c, fr.lbl);
    assert Came(c, f, fr, path);
    assert Past(c, f, fr, path) == [];
    assert CameSafely(c, f, fr, path);
  }

  lemma StraightStep(c: Code, ops: FloatOps, f: nat, s: State, end: LType)
    requires Sound(c) && s.status.Running? && StackSafe(c, f, s, end) && HasInstr(c, s.cur) && Straight(InstrAt(c, s.cur))
    ensures Safe(c, Step(c, ops, s), end)
  {
    hide FrameTyped, True, Flow, WellFormed, TypedCode, PathsInitialised, AfterInstr, Awaited, Perform, FrameSafe, Past, Came, AllTrue;
    var path := FrameReady(c, f, s);
    var i, facts := InstrAt(c, s.cur), Flow({}, Past(c, f, s.cur, path));
    StraightSafe(c, ops, f, s, i, facts);
    var t := Step(c, ops, s);
    if t.status.Running? {
      OnwardSafe(c, f, s.cur, t.cur, path);
      assert StackSafe(c, f, t, end);
    }
  }

  lemma CallStep(c: Code, ops: FloatOps, f: nat, s: State, end: LType)
    requires Sound(c) && s.status.Running? && StackSafe(c, f, s, end) && HasInstr(c, s.cur) && InstrAt(c, s.cur).CallFn?
    ensures Safe(c, Step(c, ops, s), end)
  {
    hide FrameTyped, True, Flow, WellFormed, TypedCode, PathsInitialised, AfterInstr, FrameSafe, Past, Came, AllTrue, FetchAll;
    var path := FrameReady(c, f, s);
    var i, facts := InstrAt(c, s.cur), Flow({}, Past(c, f, s.cur, path));
    CallArgs(c, f, s, i, facts);
    var g, t := i.fn, Step(c, ops, s);
    EntrySafe(c, g, t.cur);
    CallerResumes(c, f, s, path);
    assert t.callers[0] == s.cur.(pc := s.cur.pc + 1) && t.callers[1..] == s.callers;
    assert ResumedBy(c, f, c.fns[g].ret, i.dst, t.callers, end);
    assert StackSafe(c, g, t, end);
  }

  lemma CallArgs(c: Code, f: nat, s: State, i: Instr, facts: set<Fact>)
    requires Ready(c, f, s, i, facts) && i.CallFn?
    ensures f < |c.fns| && i.fn < |c.fns| && IsData(c.fns[i.fn].ret) && Defines(c, i.dst, c.fns[i.fn].ret)
    ensures var x := FetchAll(s.cur, i.args); x.GotAll? && ArgsHaveTypes(x.vs, c.fns[i.fn].params)
  {
    hide RegTyped, Unshared, True;
    FetchAllTyped(c, f, s.cur, i.args, c.fns[i.fn].params);
  }

  lemma CallerResumes(c: Code, f: nat, s: State, path: seq<nat>)
    requires WellFormed(c) && CameSafely(c, f, s.cur, path) && FrameTyped(c, f, s.cur) && HasInstr(c, s.cur)
    requires var i := InstrAt(c, s.cur); i.CallFn? && i.fn < |c.fns| && Defines(c, i.dst, c.fns[i.fn].ret)
    ensures var i := InstrAt(c, s.cur); Resumable(c, f, s.cur.(pc := s.cur.pc + 1), i.dst, c.fns[i.fn].ret)
  {
    hide FrameTyped, AllTrue, Flow, WellFormed, Past, Came, FrameSafe;
    var i, facts := InstrAt(c, s.cur), Flow({}, Past(c, f, s.cur, path));
    forall v | TypeOfVal(v) == c.fns[i.fn].ret
      ensures var h := s.cur.(pc := s.cur.pc + 1); FrameSafe(c, f, h.(regs := h.regs[i.dst := Data(v)]))
    {
      SetTyped(c, f, s.cur, i.dst, Data(v));
      SetTrue(s.cur, i.dst, Data(v), facts);
      OnwardSafe(c, f, s.cur, SetReg(s.cur, i.dst, Data(v)), path);
    }
  }

  lemma BranchStep(c: Code, ops: FloatOps, f: nat, s: State, end: LType)
    requires Sound(c) && s.status.Running? && StackSafe(c, f, s, end) && HasInstr(c, s.cur)
    requires InstrAt(c, s.cur).Br? || InstrAt(c, s.cur).CondBr?
    ensures Safe(c, Step(c, ops, s), end)
  {
    hide FrameTyped, True, Flow, WellFormed, TypedCode, PathsInitialised, FrameSafe, Past, Came, AllTrue, Awaited;
    var path := FrameReady(c, f, s);
    var i, t := InstrAt(c, s.cur), Step(c, ops, s);
    FetchedFor(c, f, s, i, Flow({}, Past(c, f, s.cur, path)));
    JumpSafe(c, f, s.cur, path, t.cur.lbl, t.cur.trail);
    assert StackSafe(c, f, t, end);
  }

  lemma FetchedFor(c: Code, f: nat, s: State, i: Instr, facts: set<Fact>)
    requires Ready(c, f, s, i, facts) && (i.Br? || i.CondBr? || i.Ret?)
    ensures f < |c.fns|
    ensures i.CondBr? ==> var x := Fetch(s.cur, i.c); x.Got? && x.v.BoolV?
    ensures i.Ret? ==> var x := Fetch(s.cur, i.a); x.Got? && TypeOfVal(x.v) == c.fns[f].ret
  {
    hide RegTyped, Unshared, True;
    if i.CondBr? {
      FetchTyped(c, f, s.cur, i.c, I1);
    } else if i.Ret? {
      FetchTyped(c, f, s.cur, i.a, c.fns[f].ret);
    }
  }

  lemma Resumer(c: Code, t: LType, dst: nat, callers: seq<Frame>, end: LType) returns (f: nat)
    requires callers != [] && Awaited(c, t, dst, callers, end)
    ensures ResumedBy(c, f, t, dst, callers, end)
  {
    hide Resumable;
    f :| ResumedBy(c, f, t, dst, callers, end);
  }

  lemma ReturnStep(c: Code, ops: FloatOps, f: nat, s: State, end: LType)
    requires Sound(c) && s.status.Running? && StackSafe(c, f, s, end) && HasInstr(c, s.cur) && InstrAt(c, s.cur).Ret?
    ensures Safe(c, Step(c, ops, s), end)
  {
    hide FrameTyped, True, Flow, WellFormed, TypedCode, PathsInitialised, FrameSafe, Past, Came, AllTrue;
    var path := FrameReady(c, f, s);
    var i, t := InstrAt(c, s.cur), Step(c, ops, s);
    FetchedFor(c, f, s, i, Flow({}, Past(c, f, s.cur, path)));
    if s.callers != [] {
      var g := Resumer(c, c.fns[f].ret, s.cur.dst, s.callers, end);
      assert StackSafe(c, g, t, end);
    }
  }

  lemma StepSafe(c: Code, ops: FloatOps, s: State, end: LType)
    requires Sound(c) && Safe(c, s, end)
    ensures Safe(c, Step(c, ops, s), end)
  {
    hide Sound, StackSafe, Perform;
    if s.status.Running? {
      var f: nat :| StackSafe(c, f, s, end);
      StackHasInstr(c, f, s, end);
      var i := InstrAt(c, s.cur);
      if Straight(i) {
        StraightStep(c, ops, f, s, end);
      } else if i.CallFn? {
        CallStep(c, ops, f, s, end);
      } else if i.Br? || i.CondBr? {
        BranchStep(c, ops, f, s, end);
      } else if i.Ret? {
        ReturnStep(c, ops, f, s, end);
      } else {
        assert Step(c, ops, s).status == ReachedUnreachable by { StopsThere(c, ops, s); }
      }
    }
  }

  lemma StackHasInstr(c: Code, f: nat, s: State, end: LType)
    requires StackSafe(c, f, s, end)
    ensures HasInstr(c, s.cur)
  {
    hide FrameTyped, AllTrue, Awaited, Past;
    var path :| CameSafely(c, f, s.cur, path);
  }

  lemma StopsThere(c: Code, ops: FloatOps, s: State)
    requires s.status.Running? && HasInstr(c, s.cur) && InstrAt(c, s.cur).Unreachable?
    ensures Step(c, ops, s).status == ReachedUnreachable
  {
  }

  // ----- runs -----

  lemma {:induction false} RunSafe(c: Code, ops: FloatOps, s: State, end: LType, n: nat)
    requires Sound(c) && Safe(c, s, end)
    ensures Safe(c, Run(c, ops, s, n), end)
    decreases n
  {
    hide Sound, Safe, Step;
    if n > 0 {
      StepSafe(c, ops, s, end);
      RunSafe(c, ops, Step(c, ops, s), end, n - 1);
    }
  }

  /** Well-typed and initialised code, started in any function with arguments of its types, can fault
      on a division by zero and on nothing else, and if it ends it ends with a value of the type the
      function returns. */
  lemma CodeNeverGoesWrong(c: Code, ops: FloatOps, f: nat, vs: seq<Val>, n: nat)
    requires Sound(c) && f < |c.fns| && ArgsHaveTypes(vs, c.fns[f].params)
    ensures var s := State(Frame(c.fns[f].entry, 0, map[], vs, [], 0, []), [], [], Running);
      var t := Run(c, ops, s, n);
      && (t.status.Faulted? ==> t.status.f == DivisionByZero)
      && (t.status.Finished? ==> TypeOfVal(t.status.v) == c.fns[f].ret)
  {
    hide WellFormed, TypedCode, PathsInitialised;
    var s := State(Frame(c.fns[f].entry, 0, map[], vs, [], 0, []), [], [], Running);
    EntrySafe(c, f, s.cur);
    assert StackSafe(c, f, s, c.fns[f].ret);
    RunSafe(c, ops, s, c.fns[f].ret, n);
  }

  /** What the uses of an instruction are: if one of them is not true, the machine cannot perform it. */
  lemma UnmetUseFaults(c: Code, ops: FloatOps, s: State, i: Instr, f: Fact)
    requires f in Uses(i) && !True(s.cur, f) && s.status.Running?
    ensures Perform(c, ops, s, i).status.Faulted?
  {
    if i.CallFn? {
      UnmetArgument(s.cur, i.args, f);
    }
  }

  lemma {:induction false} UnmetArgument(fr: Frame, ops: seq<Operand>, f: Fact)
    requires f in NeedsAll(ops) && !True(fr, f)
    ensures FetchAll(fr, ops).MissingOne?
    decreases ops
  {
    if f !in Needs(ops[0]) {
      UnmetArgument(fr, ops[1..], f);
    }
  }
}
