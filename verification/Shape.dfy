/** How the generator's state grows: code is only ever appended, only to the insert block, and
    never after a terminator; and what is left behind is a well-formed flow graph. */
module Shape {
  import opened Wrappers
  import opened Ir
  import opened Lowering

  /** `d` is `c` with instructions, registers, blocks and functions added at the ends. */
  ghost predicate Extends(c: Code, d: Code) {
    && |c.blocks| <= |d.blocks|
    && c.regs <= d.regs
    && c.fns <= d.fns
    && forall l :: 0 <= l < |c.blocks| ==> c.blocks[l].code <= d.blocks[l].code
  }

  lemma ExtendsTransitive(c: Code, d: Code, e: Code)
    requires Extends(c, d) && Extends(d, e)
    ensures Extends(c, e)
  {
    forall l | 0 <= l < |c.blocks| ensures c.blocks[l].code <= e.blocks[l].code {
      assert c.blocks[l].code <= d.blocks[l].code <= e.blocks[l].code;
    }
  }

  /** From `b` to `g` only the insert block of `b` and blocks created since were written. */
  ghost predicate Grows(b: Gen, g: Gen) {
    && Extends(b.code, g.code)
    && g.code.fns == b.code.fns && g.funcs == b.funcs && g.cur == b.cur
    && (g.ok ==> b.ok)
    && (forall l :: 0 <= l < |b.code.blocks| && l != b.insert ==> g.code.blocks[l] == b.code.blocks[l])
    && (b.insert < |b.code.blocks| ==> g.code.blocks[b.insert].parent == b.code.blocks[b.insert].parent)
    && (g.insert == b.insert || |b.code.blocks| <= g.insert < |g.code.blocks|)
  }

  /** The insert block exists and belongs to the current function. */
  ghost predicate Placed(g: Gen) {
    g.insert < |g.code.blocks| && g.code.blocks[g.insert].parent == Some(g.cur)
  }

  /** ... and has no terminator yet. */
  ghost predicate Open(g: Gen) {
    Placed(g) && !Terminated(g.code.blocks[g.insert].code)
  }

  ghost predicate Closed(g: Gen, l: nat)
    requires l < |g.code.blocks|
  {
    Terminated(g.code.blocks[l].code) && g.code.blocks[l].parent == Some(g.cur)
  }

  /** The blocks that may have been written to between `b` and `g`. */
  ghost predicate Written(b: Gen, g: Gen, l: nat) {
    (l == b.insert || |b.code.blocks| <= l) && l < |g.code.blocks|
  }

  /** Every block created since `b`, and the insert block of `b`, is finished, except the current
      insert block and the ones listed as pending. */
  ghost predicate Settled(b: Gen, g: Gen, pending: set<nat>)
  {
    forall l :: Written(b, g, l) && l != g.insert && l !in pending ==> Closed(g, l)
  }

  /** Branches stay inside the blocks from `lo` on, and only a last instruction is a terminator. */
  ghost predicate Tidy(g: Gen, lo: nat) {
    forall l, k :: lo <= l < |g.code.blocks| && 0 <= k < |g.code.blocks[l].code| ==>
      TidyInstr(g, lo, l, k)
  }

  ghost predicate TidyInstr(g: Gen, lo: nat, l: nat, k: nat)
    requires l < |g.code.blocks| && k < |g.code.blocks[l].code|
  {
    && (forall t :: t in g.code.blocks[l].code[k].Targets() ==> lo <= t < |g.code.blocks|)
    && (k < |g.code.blocks[l].code| - 1 ==> !g.code.blocks[l].code[k].IsTerminator())
  }

  // ----- single steps -----

  lemma GrowsRefl(g: Gen)
    ensures Grows(g, g)
  {
  }

  lemma GrowsTransitive(b: Gen, g: Gen, h: Gen)
    requires Grows(b, g) && Grows(g, h)
    ensures Grows(b, h)
  {
    ExtendsTransitive(b.code, g.code, h.code);
  }

  lemma GrowsEmit(b: Gen, g: Gen, i: Instr)
    requires Grows(b, g) && g.insert < |g.code.blocks|
    ensures Grows(b, Emit(g, i))
  {
    var h := Emit(g, i);
    forall l | 0 <= l < |b.code.blocks| ensures b.code.blocks[l].code <= h.code.blocks[l].code {
      assert b.code.blocks[l].code <= g.code.blocks[l].code <= h.code.blocks[l].code;
    }
  }

  lemma GrowsEmitDef(b: Gen, g: Gen, t: LType, i: Instr)
    requires Grows(b, g) && g.insert < |g.code.blocks|
    ensures Grows(b, EmitDef(g, t, i))
  {
    GrowsEmit(b, g.(code := g.code.(regs := g.code.regs + [t])), i);
  }

  lemma GrowsCreate(b: Gen, g: Gen, parent: Option<nat>)
    requires Grows(b, g) && b.insert < |b.code.blocks|
    ensures Grows(b, CreateBlock(g, parent))
  {
  }

  lemma GrowsSetInsert(b: Gen, g: Gen, l: nat)
    requires Grows(b, g) && |b.code.blocks| <= l < |g.code.blocks|
    ensures Grows(b, SetInsert(g, l))
    ensures Grows(b, SetInsert(Attach(g, l), l))
  {
  }

  lemma GrowsError(b: Gen, g: Gen)
    requires Grows(b, g)
    ensures Grows(b, Error(g))
  {
  }

  lemma SettledTransitive(b: Gen, g: Gen, h: Gen, pending: set<nat>)
    requires Grows(b, g) && Grows(g, h)
    requires Settled(b, g, pending) && Settled(g, h, {})
    ensures Settled(b, h, pending)
  {
    forall l: nat | Written(b, h, l) && l != h.insert && l !in pending ensures Closed(h, l) {
      if l < |g.code.blocks| && l != g.insert {
        assert Written(b, g, l);
        assert h.code.blocks[l] == g.code.blocks[l];
      } else {
        assert Written(g, h, l);
      }
    }
  }

  /** Leaving a finished insert block for a pending one. */
  lemma SettledSwitch(b: Gen, g: Gen, l: nat, pending: set<nat>, rest: set<nat>)
    requires Settled(b, g, pending) && g.insert < |g.code.blocks| && Closed(g, g.insert)
    requires l < |g.code.blocks| && l != g.insert && pending <= rest + {l}
    ensures Settled(b, SetInsert(Attach(g, l), l), rest)
  {
    var h := SetInsert(Attach(g, l), l);
    forall k: nat | Written(b, h, k) && k != h.insert && k !in rest ensures Closed(h, k) {
      assert Written(b, g, k);
      assert h.code.blocks[k] == g.code.blocks[k];
    }
  }

  lemma SettledEmit(b: Gen, g: Gen, i: Instr, pending: set<nat>)
    requires Settled(b, g, pending)
    ensures Settled(b, Emit(g, i), pending)
  {
    var h := Emit(g, i);
    forall k: nat | Written(b, h, k) && k != h.insert && k !in pending ensures Closed(h, k) {
      assert Written(b, g, k);
      assert h.code.blocks[k] == g.code.blocks[k];
    }
  }

  lemma TidyEmit(g: Gen, i: Instr, lo: nat)
    requires Tidy(g, lo) && Open(g)
    requires forall t :: t in i.Targets() ==> lo <= t < |g.code.blocks|
    ensures Tidy(Emit(g, i), lo)
  {
    var h := Emit(g, i);
    forall l, k | lo <= l < |h.code.blocks| && 0 <= k < |h.code.blocks[l].code|
      ensures TidyInstr(h, lo, l, k)
    {
      if l != g.insert || k < |g.code.blocks[l].code| {
        assert TidyInstr(g, lo, l, k);
      }
    }
  }

  lemma TidyCreate(g: Gen, parent: Option<nat>, lo: nat)
    requires Tidy(g, lo)
    ensures Tidy(CreateBlock(g, parent), lo)
  {
    var h := CreateBlock(g, parent);
    forall l, k | lo <= l < |h.code.blocks| && 0 <= k < |h.code.blocks[l].code|
      ensures TidyInstr(h, lo, l, k)
    {
      assert TidyInstr(g, lo, l, k);
    }
  }

  lemma TidySwitch(g: Gen, l: nat, lo: nat)
    requires Tidy(g, lo)
    ensures Tidy(SetInsert(g, l), lo) && Tidy(Attach(g, l), lo)
  {
    forall m, k | lo <= m < |g.code.blocks| && 0 <= k < |g.code.blocks[m].code|
      ensures TidyInstr(SetInsert(g, l), lo, m, k) && TidyInstr(Attach(g, l), lo, m, k)
    {
      assert TidyInstr(g, lo, m, k);
    }
  }

  // ----- a visit in progress -----

  /** All that holds part-way through a visit that started in `b`. */
  ghost predicate Underway(b: Gen, g: Gen, pending: set<nat>, lo: nat) {
    && Grows(b, g) && Settled(b, g, pending) && Tidy(g, lo)
    && lo <= b.insert < |b.code.blocks|
  }

  lemma UnderwayStart(g: Gen, pending: set<nat>, lo: nat)
    requires Open(g) && Tidy(g, lo) && lo <= g.insert
    ensures Underway(g, g, pending, lo)
  {
  }

  lemma UnderwayEmit(b: Gen, g: Gen, i: Instr, pending: set<nat>, lo: nat)
    requires Underway(b, g, pending, lo) && Open(g)
    requires forall t :: t in i.Targets() ==> lo <= t < |g.code.blocks|
    ensures Underway(b, Emit(g, i), pending, lo) && Placed(Emit(g, i))
    ensures i.IsTerminator() ==> Closed(Emit(g, i), g.insert)
    ensures !i.IsTerminator() ==> Open(Emit(g, i))
  {
    GrowsEmit(b, g, i);
    SettledEmit(b, g, i, pending);
    TidyEmit(g, i, lo);
  }

  lemma UnderwayDef(b: Gen, g: Gen, t: LType, i: Instr, pending: set<nat>, lo: nat)
    requires Underway(b, g, pending, lo) && Open(g) && !i.IsTerminator()
    ensures Underway(b, EmitDef(g, t, i), pending, lo) && Open(EmitDef(g, t, i))
  {
    var g1 := g.(code := g.code.(regs := g.code.regs + [t]));
    assert Tidy(g1, lo) by {
      forall m, k | lo <= m < |g.code.blocks| && 0 <= k < |g.code.blocks[m].code|
        ensures TidyInstr(g1, lo, m, k)
      {
        assert TidyInstr(g, lo, m, k);
      }
    }
    assert Settled(b, g1, pending) by {
      forall k: nat | Written(b, g1, k) && k != g1.insert && k !in pending ensures Closed(g1, k) {
        assert Written(b, g, k);
      }
    }
    UnderwayEmit(b, g1, i, pending, lo);
  }

  lemma UnderwayCreate(b: Gen, g: Gen, parent: Option<nat>, pending: set<nat>, lo: nat)
    requires Underway(b, g, pending, lo) && g.insert < |g.code.blocks| && NextLabel(g) in pending
    ensures Underway(b, CreateBlock(g, parent), pending, lo)
    ensures Open(g) ==> Open(CreateBlock(g, parent))
  {
    var h := CreateBlock(g, parent);
    GrowsCreate(b, g, parent);
    TidyCreate(g, parent, lo);
    forall k: nat | Written(b, h, k) && k != h.insert && k !in pending ensures Closed(h, k) {
      assert Written(b, g, k);
    }
  }

  lemma UnderwayVisit(b: Gen, g: Gen, h: Gen, pending: set<nat>, lo: nat)
    requires Underway(b, g, pending, lo) && Underway(g, h, {}, lo)
    ensures Underway(b, h, pending, lo)
  {
    GrowsTransitive(b, g, h);
    SettledTransitive(b, g, h, pending);
  }

  /** Leave a finished block for a block created since, which is attached. */
  lemma UnderwaySwitch(b: Gen, g: Gen, l: nat, pending: set<nat>, rest: set<nat>, lo: nat)
    requires Underway(b, g, pending, lo)
    requires g.insert < |g.code.blocks| && Closed(g, g.insert)
    requires |b.code.blocks| <= l < |g.code.blocks| && l != g.insert
    requires pending <= rest + {l}
    ensures Underway(b, SetInsert(Attach(g, l), l), rest, lo)
    ensures Placed(SetInsert(Attach(g, l), l))
  {
    GrowsSetInsert(b, g, l);
    SettledSwitch(b, g, l, pending, rest);
    TidySwitch(g, l, lo);
    TidySwitch(Attach(g, l), l, lo);
  }
}
