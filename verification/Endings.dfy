/** Where a run can stop at an `unreachable`: only in the last block of a function whose body control
    can get past. */
module Endings {
  import opened Wrappers
  import opened Values
  import opened Ast
  import opened Ir
  import opened Lowering
  import opened Shape
  import opened FlowGraph
  import opened Paths
  import opened Declarations
  import opened Initialised
  import opened Offences
  import opened Correctness
  import opened Acceptance

  /** The only `unreachable` on a path is the last instruction of the last block. */
  lemma TrapIsAtEnd(p: Program, i: nat, path: seq<nat>, k: nat)
    requires LowerProgram(p).ok && i < |p| && AssuredFunction(p[i]) && i < |LowerProgram(p).code.fns|
    requires PathOf(p, i, path) && path != [] && k < |LowerProgram(p).code.blocks[path[|path| - 1]].code|
    requires LowerProgram(p).code.blocks[path[|path| - 1]].code[k].Unreachable?
    ensures path[|path| - 1] == LastBlock(p, i) && Falls(p[i].body)
  {
    hide LowerProgram, LowerFunction, AssuredFunction, Falls, BodyEnd;
    var g, c, l := LowerProgram(p[..i]), LowerProgram(p).code, path[|path| - 1];
    var blocks := BodyEnd(g, p[i]).code.blocks;
    var into := ProgramCovered(p, i);
    PathFacts(c, blocks, into, NextLabel(g), path);
    if k < |blocks[l].code| {
      var before := Trace(c, path[..|path| - 1]);
      assert c.blocks[l].code[k] == blocks[l].code[k];
      UseCovered(blocks, into, NextLabel(g), l, k, before);
    } else {
      OnlyLastBlockEnds(p, i, l);
    }
  }

  lemma OnlyLastBlockEnds(p: Program, i: nat, l: nat)
    requires LowerProgram(p).ok && i < |p|
    requires var g2 := BodyEnd(LowerProgram(p[..i]), p[i]);
      l < |g2.code.blocks| && l < |LowerProgram(p).code.blocks| && LowerProgram(p).code.blocks[l].code != g2.code.blocks[l].code
    ensures l == LastBlock(p, i) && Open(BodyEnd(LowerProgram(p[..i]), p[i]))
  {
    hide LowerProgram, LowerStmt, LowerParams;
    PrefixStep(p, i);
    PrefixExtends(p, i + 1);
    ShapeBody(LowerProgram(p[..i]), p[i]);
  }

  // ----- runs -----

  /** The frame is at a block that a path leads to from the entry of its function. */
  ghost predicate OnPath(p: Program, fr: Frame) {
    exists f: nat :: f < |p| && f < |LowerProgram(p).code.fns| && SomePathTo(p, f, fr.lbl)
  }

  ghost predicate AllOnPaths(p: Program, s: State) {
    OnPath(p, s.cur) && forall k :: 0 <= k < |s.callers| ==> OnPath(p, s.callers[k])
  }

  lemma EntryOnPath(p: Program, f: nat, fr: Frame)
    requires f < |p| && f < |LowerProgram(p).code.fns| && fr.lbl == LowerProgram(p).code.fns[f].entry
    requires fr.lbl < |LowerProgram(p).code.blocks|
    ensures OnPath(p, fr)
  {
    hide LowerProgram;
    assert PathOf(p, f, [fr.lbl]);
    assert SomePathTo(p, f, fr.lbl);
  }

  lemma NextOnPath(p: Program, a: Frame, b: Frame)
    requires OnPath(p, a) && b.lbl in Successors(LowerProgram(p).code, a.lbl) && b.lbl < |LowerProgram(p).code.blocks|
    ensures OnPath(p, b)
  {
    hide LowerProgram;
    var f: nat :| f < |p| && f < |LowerProgram(p).code.fns| && SomePathTo(p, f, a.lbl);
    var path :| PathOf(p, f, path) && path != [] && path[|path| - 1] == a.lbl;
    assert PathOf(p, f, path + [b.lbl]);
    assert SomePathTo(p, f, b.lbl);
  }

  lemma SameOnPath(p: Program, a: Frame, b: Frame)
    requires OnPath(p, a) && b.lbl == a.lbl
    ensures OnPath(p, b)
  {
  }

  /** What one instruction does to the frames. */
  lemma StepFrames(c: Code, ops: FloatOps, s: State)
    requires s.status.Running? && HasInstr(c, s.cur) && WellFormedBlock(c, s.cur.lbl)
    ensures var t := Step(c, ops, s);
      || (t.cur.lbl == s.cur.lbl && t.callers == s.callers)
      || (t.cur.lbl in Successors(c, s.cur.lbl) && t.cur.lbl < |c.blocks| && t.callers == s.callers)
      || (exists f: nat :: f < |c.fns| && t.cur.lbl == c.fns[f].entry
            && |t.callers| == |s.callers| + 1 && t.callers[0].lbl == s.cur.lbl && t.callers[1..] == s.callers)
      || (s.callers != [] && t.cur.lbl == s.callers[0].lbl && t.callers == s.callers[1..])
  {
    var b, k := c.blocks[s.cur.lbl].code, s.cur.pc;
    var i := b[k];
    if i.Br? || i.CondBr? {
      assert k == |b| - 1;
      assert StaysInside(c, b[k], c.blocks[s.cur.lbl].parent);
    }
  }

  lemma StepOnPaths(p: Program, ops: FloatOps, s: State)
    requires WellFormed(LowerProgram(p).code) && |LowerProgram(p).code.fns| == |p| && AllOnPaths(p, s)
    ensures AllOnPaths(p, Step(LowerProgram(p).code, ops, s))
  {
    hide LowerProgram, OnPath, Step, Successors;
    var c := LowerProgram(p).code;
    var t := Step(c, ops, s);
    if s.status.Running? && HasInstr(c, s.cur) {
      StepFrames(c, ops, s);
      if t.cur.lbl == s.cur.lbl && t.callers == s.callers {
        SameOnPath(p, s.cur, t.cur);
      } else if t.cur.lbl in Successors(c, s.cur.lbl) && t.cur.lbl < |c.blocks| && t.callers == s.callers {
        NextOnPath(p, s.cur, t.cur);
      } else if s.callers != [] && t.cur.lbl == s.callers[0].lbl && t.callers == s.callers[1..] {
        SameOnPath(p, s.callers[0], t.cur);
      } else {
        var f: nat :| f < |c.fns| && t.cur.lbl == c.fns[f].entry
            && |t.callers| == |s.callers| + 1 && t.callers[0].lbl == s.cur.lbl && t.callers[1..] == s.callers;
        EntryOnPath(p, f, t.cur);
        SameOnPath(p, s.cur, t.callers[0]);
        forall k | 0 <= k < |t.callers| ensures OnPath(p, t.callers[k]) {
          assert k == 0 || t.callers[k] == s.callers[k - 1];
        }
      }
    } else {
      NoStep(c, ops, s);
      SameOnPath(p, s.cur, t.cur);
    }
  }

  lemma NoStep(c: Code, ops: FloatOps, s: State)
    requires !s.status.Running? || !HasInstr(c, s.cur)
    ensures Step(c, ops, s).cur == s.cur && Step(c, ops, s).callers == s.callers
    ensures !Step(c, ops, s).status.ReachedUnreachable? || Step(c, ops, s) == s
  {
  }

  /** The machine stopped at an `unreachable` is at the instruction itself. */
  ghost predicate AtTrap(c: Code, s: State) {
    s.status.ReachedUnreachable? ==> HasInstr(c, s.cur) && c.blocks[s.cur.lbl].code[s.cur.pc].Unreachable?
  }

  lemma StepTrap(c: Code, ops: FloatOps, s: State)
    requires AtTrap(c, s)
    ensures AtTrap(c, Step(c, ops, s))
  {
  }

  lemma {:induction false} RunOnPaths(p: Program, ops: FloatOps, s: State, n: nat)
    requires WellFormed(LowerProgram(p).code) && |LowerProgram(p).code.fns| == |p|
    requires AllOnPaths(p, s) && AtTrap(LowerProgram(p).code, s)
    ensures var t := Run(LowerProgram(p).code, ops, s, n); AllOnPaths(p, t) && AtTrap(LowerProgram(p).code, t)
    decreases n
  {
    hide LowerProgram, AllOnPaths, AtTrap, Step, WellFormed;
    if n > 0 {
      StepOnPaths(p, ops, s);
      StepTrap(LowerProgram(p).code, ops, s);
      RunOnPaths(p, ops, Step(LowerProgram(p).code, ops, s), n - 1);
    }
  }

  /** A run stops at an `unreachable` only in the last block of a function whose body control can get
      past, so never in one whose body always returns. */
  lemma StopsAtEndOfFalling(p: Program, ops: FloatOps, i: nat, vs: seq<Val>, n: nat) returns (f: nat)
    requires CanStart(p, i, vs) && After(p, ops, i, vs, n).status == ReachedUnreachable
    ensures f < |p| && Falls(p[f].body) && After(p, ops, i, vs, n).cur.lbl == LastBlock(p, f)
    ensures var t := After(p, ops, i, vs, n);
      t.cur.lbl < |LowerProgram(p).code.blocks| && LowerProgram(p).code.blocks[t.cur.lbl].parent == Some(f)
  {
    hide LowerProgram, WellFormed, Falls, AllOnPaths, AssuredFunction, AcceptsProgram;
    CompilableLowers(p);
    var c, t := LowerProgram(p).code, After(p, ops, i, vs, n);
    ProgramWellFormed(p);
    EntriesExist(c, i);
    EntryOnPath(p, i, Start(p, i, vs).cur);
    StartsOnPaths(p, i, vs);
    RunOnPaths(p, ops, Start(p, i, vs), n);
    CurrentOnPath(p, t);
    f :| f < |p| && f < |c.fns| && SomePathTo(p, f, t.cur.lbl);
    var path :| PathOf(p, f, path) && path != [] && path[|path| - 1] == t.cur.lbl;
    TrapIsAtEnd(p, f, path, t.cur.pc);
    PathStaysInside(c, f, path);
  }

  lemma EntriesExist(c: Code, f: nat)
    requires WellFormed(c) && f < |c.fns|
    ensures c.fns[f].entry < |c.blocks| && c.blocks[c.fns[f].entry].parent == Some(f)
  {
  }

  lemma StartsOnPaths(p: Program, i: nat, vs: seq<Val>)
    requires i < |LowerProgram(p).code.fns| && OnPath(p, Start(p, i, vs).cur)
    ensures AllOnPaths(p, Start(p, i, vs)) && AtTrap(LowerProgram(p).code, Start(p, i, vs))
  {
    hide LowerProgram, OnPath;
  }

  lemma CurrentOnPath(p: Program, s: State)
    requires AllOnPaths(p, s)
    ensures OnPath(p, s.cur)
  {
    hide OnPath;
  }

  lemma {:induction false} PathStaysInside(c: Code, f: nat, path: seq<nat>)
    requires WellFormed(c) && f < |c.fns| && Path(c, path) && path != [] && path[0] == c.fns[f].entry
    ensures c.blocks[path[|path| - 1]].parent == Some(f)
    decreases path
  {
    var n := |path| - 1;
    if n > 0 {
      PathStaysInside(c, f, path[..n]);
      var m := path[n - 1];
      assert path[n] in Successors(c, m);
      assert WellFormedBlock(c, m);
      assert StaysInside(c, c.blocks[m].code[|c.blocks[m].code| - 1], Some(f));
    }
  }
}
