/** Paths through a flow graph, whatever the conditions on its branches, and what is written on
    them: registers, cells allocated, cells stored to. */
module Paths {
  import opened Ir

  /** `Allocated(r)`: `r` points to a cell.  `Stored(r)`: that cell has been stored to. */
  datatype Fact = Written(r: nat) | Allocated(r: nat) | Stored(r: nat)

  function Needs(op: Operand): set<Fact> {
    if op.Reg? then {Written(op.r)} else {}
  }

  function NeedsAll(ops: seq<Operand>): set<Fact> {
    if ops == [] then {} else Needs(ops[0]) + NeedsAll(ops[1..])
  }

  /** What must hold before the instruction. */
  function Uses(i: Instr): set<Fact> {
    match i
    case Alloca(_, _) => {}
    case Load(_, _, ptr) => {Allocated(ptr), Stored(ptr)}
    case Store(v, ptr) => Needs(v) + {Allocated(ptr)}
    case Op1(_, _, a) => Needs(a)
    case Op2(_, _, a, b) => Needs(a) + Needs(b)
    case CallFn(_, _, args) => NeedsAll(args)
    case FPExt(_, a) => Needs(a)
    case PrintI32(a) => Needs(a)
    case PrintF64(r) => {Written(r)}
    case Br(_) => {}
    case CondBr(c, _, _) => Needs(c)
    case Ret(a) => Needs(a)
    case Unreachable => {}
  }

  predicate Writes(i: Instr, r: nat) {
    match i
    case Alloca(dst, _) => dst == r
    case Load(dst, _, _) => dst == r
    case Op1(dst, _, _) => dst == r
    case Op2(dst, _, _, _) => dst == r
    case CallFn(dst, _, _) => dst == r
    case FPExt(dst, _) => dst == r
    case _ => false
  }

  predicate Avoids(code: seq<Instr>, r: nat) {
    forall k :: 0 <= k < |code| ==> !Writes(code[k], r)
  }

  // ----- what has happened in a sequence of instructions -----

  predicate WritesAt(code: seq<Instr>, j: nat, r: nat) {
    j < |code| && Writes(code[j], r)
  }

  /** Instruction `j` allocates the cell `r` points to at the end of the code. */
  predicate AllocatesAt(code: seq<Instr>, j: nat, r: nat) {
    j < |code| && code[j].Alloca? && code[j].dst == r && Avoids(code[j + 1..], r)
  }

  /** Instruction `j` stores to the cell `r` points to at the end of the code. */
  predicate StoresAt(code: seq<Instr>, j: nat, r: nat) {
    j < |code| && code[j].Store? && code[j].ptr == r && Avoids(code[j + 1..], r)
  }

  ghost predicate Happened(code: seq<Instr>, f: Fact) {
    match f
    case Written(r) => exists j: nat :: WritesAt(code, j, r)
    case Allocated(r) => exists j: nat :: AllocatesAt(code, j, r)
    case Stored(r) => exists j: nat :: StoresAt(code, j, r)
  }

  /** Registers are written before they are used, cells allocated before they are accessed, and
      stored to before they are loaded from. */
  ghost predicate UsesAfterDefs(code: seq<Instr>) {
    forall k, f :: 0 <= k < |code| && f in Uses(code[k]) ==> Happened(code[..k], f)
  }

  // ----- the same, computed along the code -----

  function AfterInstr(facts: set<Fact>, i: Instr): set<Fact> {
    match i
    case Alloca(dst, _) => facts - {Stored(dst)} + {Written(dst), Allocated(dst)}
    case Store(_, ptr) => facts + {Stored(ptr)}
    case Load(dst, _, _) => Overwritten(facts, dst)
    case Op1(dst, _, _) => Overwritten(facts, dst)
    case Op2(dst, _, _, _) => Overwritten(facts, dst)
    case CallFn(dst, _, _) => Overwritten(facts, dst)
    case FPExt(dst, _) => Overwritten(facts, dst)
    case _ => facts
  }

  function Overwritten(facts: set<Fact>, r: nat): set<Fact> {
    facts - {Allocated(r), Stored(r)} + {Written(r)}
  }

  function Flow(facts: set<Fact>, code: seq<Instr>): set<Fact> {
    if code == [] then facts else AfterInstr(Flow(facts, code[..|code| - 1]), code[|code| - 1])
  }

  lemma AvoidsSnoc(code: seq<Instr>, j: nat, r: nat)
    requires j < |code|
    ensures var n := |code| - 1;
      Avoids(code[j + 1..], r) <==> j == n || (Avoids(code[..n][j + 1..], r) && !Writes(code[n], r))
  {
    var n := |code| - 1;
    if j < n {
      var a, b := code[j + 1..], code[..n][j + 1..];
      assert a == b + [code[n]];
      if Avoids(a, r) {
        forall k | 0 <= k < |b| ensures !Writes(b[k], r) {
          assert b[k] == a[k];
        }
        assert !Writes(a[|b|], r);
      }
    }
  }

  /** Of one instruction, when another is added at the end. */
  lemma AtSnoc(code: seq<Instr>, j: nat, r: nat)
    requires j < |code|
    ensures var n := |code| - 1;
      var i, rest := code[n], code[..n];
      && (WritesAt(code, j, r) <==> if j == n then Writes(i, r) else WritesAt(rest, j, r))
      && (AllocatesAt(code, j, r) <==>
            if j == n then i.Alloca? && i.dst == r else AllocatesAt(rest, j, r) && !Writes(i, r))
      && (StoresAt(code, j, r) <==>
            if j == n then i.Store? && i.ptr == r else StoresAt(rest, j, r) && !Writes(i, r))
  {
    AvoidsSnoc(code, j, r);
  }

  /** One more instruction. */
  lemma HappenedSnoc(code: seq<Instr>, f: Fact)
    requires code != []
    ensures var n := |code| - 1;
      var i, before := code[n], Happened(code[..n], f);
      Happened(code, f) <==>
        match f
        case Written(r) => before || Writes(i, r)
        case Allocated(r) => (before && !Writes(i, r)) || (i.Alloca? && i.dst == r)
        case Stored(r) => (before && !Writes(i, r)) || (i.Store? && i.ptr == r)
  {
    hide Avoids, Writes;
    var n := |code| - 1;
    var rest, r := code[..n], f.r;
    AtSnoc(code, n, r);
    if Happened(code, f) {
      var j: nat :| j < |code| && (WritesAt(code, j, r) || AllocatesAt(code, j, r) || StoresAt(code, j, r))
        && (f.Written? ==> WritesAt(code, j, r)) && (f.Allocated? ==> AllocatesAt(code, j, r))
        && (f.Stored? ==> StoresAt(code, j, r));
      AtSnoc(code, j, r);
    }
    if Happened(rest, f) {
      var j: nat :| j < n && (WritesAt(rest, j, r) || AllocatesAt(rest, j, r) || StoresAt(rest, j, r))
        && (f.Written? ==> WritesAt(rest, j, r)) && (f.Allocated? ==> AllocatesAt(rest, j, r))
        && (f.Stored? ==> StoresAt(rest, j, r));
      AtSnoc(code, j, r);
    }
  }

  /** The computed facts are exactly those that hold. */
  lemma {:induction false} FlowMeans(code: seq<Instr>, f: Fact)
    ensures f in Flow({}, code) <==> Happened(code, f)
    decreases code
  {
    if code != [] {
      hide Happened;
      FlowMeans(code[..|code| - 1], f);
      HappenedSnoc(code, f);
    } else {
      assert !Happened(code, f);
    }
  }

  lemma FlowSnoc(facts: set<Fact>, code: seq<Instr>, i: Instr)
    ensures Flow(facts, code + [i]) == AfterInstr(Flow(facts, code), i)
  {
    assert (code + [i])[..|code|] == code;
  }

  lemma {:induction false} FlowGrows(a: set<Fact>, b: set<Fact>, code: seq<Instr>)
    requires a <= b
    ensures Flow(a, code) <= Flow(b, code)
    decreases code
  {
    if code != [] {
      FlowGrows(a, b, code[..|code| - 1]);
    }
  }

  lemma {:induction false} FlowConcat(facts: set<Fact>, a: seq<Instr>, b: seq<Instr>)
    ensures Flow(facts, a + b) == Flow(Flow(facts, a), b)
    decreases b
  {
    if b == [] {
      assert a + b == a;
    } else {
      var n := |b| - 1;
      assert (a + b)[..|a + b| - 1] == a + b[..n];
      FlowConcat(facts, a, b[..n]);
    }
  }

  // ----- paths -----

  function Successors(c: Code, l: nat): set<nat> {
    if l < |c.blocks| && Terminated(c.blocks[l].code) then c.blocks[l].code[|c.blocks[l].code| - 1].Targets() else {}
  }

  predicate Path(c: Code, path: seq<nat>) {
    && (forall j :: 0 <= j < |path| ==> path[j] < |c.blocks|)
    && (forall j :: 0 < j < |path| ==> path[j] in Successors(c, path[j - 1]))
  }

  /** The instructions met along the way. */
  function Trace(c: Code, path: seq<nat>): seq<Instr>
    requires forall j :: 0 <= j < |path| ==> path[j] < |c.blocks|
  {
    if path == [] then []
    else Trace(c, path[..|path| - 1]) + c.blocks[path[|path| - 1]].code
  }

  /** The code is there, perhaps with the `unreachable` after a function's body. */
  predicate SameOrEnded(a: seq<Instr>, b: seq<Instr>) {
    b == a || (!Terminated(a) && b == a + [Unreachable])
  }
}
