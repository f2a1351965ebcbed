/** The bump allocator that owns the syntax tree.

    Addresses are natural numbers and 0 is the null pointer.  Where a new block lies is up to the
    system's allocator: it is a parameter, and all that is known of it is that it overlaps no block
    handed out before. */
module Arena {
  import opened Wrappers
  import opened Values

  const BLOCK_SIZE := 64 * 1024

  datatype Block = Block(base: nat, size: nat) {
    function End(): nat { base + size }
  }

  /** An object that has been constructed; `trivial` objects need no destructor. */
  datatype Object = Object(addr: nat, size: nat, align: nat, trivial: bool) {
    function End(): nat { addr + size }
  }

  /** What is asked for: the size and alignment of a type, and where a new block would lie. */
  datatype Request = Request(size: nat, align: nat, trivial: bool, base: nat) {
    predicate Valid() { 0 < size && 0 < align && PowerOfTwo(align) && 0 < base }
  }

  datatype Store = Store(
    blocks: seq<Block>, current: nat, remaining: nat, objects: seq<Object>, destructors: seq<Object>)

  const EMPTY_STORE := Store([], 0, 0, [], [])

  predicate PowerOfTwo(n: nat) {
    n == 1 || (n > 1 && n % 2 == 0 && PowerOfTwo(n / 2))
  }

  /** The smallest multiple of `align` that is at least `p`. */
  function RoundUp(p: nat, align: nat): nat
    requires 0 < align
  {
    if p % align == 0 then p else p + (align - p % align)
  }

  lemma MultipleLaw(k: nat, n: nat)
    requires 0 < n
    ensures (k * n) % n == 0
  {
    var d := k - k * n / n;
    assert d * n == k * n - k * n / n * n == (k * n) % n;
    ProductBounds(d, n);
  }

  lemma RoundUpLaw(p: nat, align: nat)
    requires 0 < align
    ensures RoundUp(p, align) % align == 0 && p <= RoundUp(p, align) < p + align
  {
    if p % align != 0 {
      var k := p / align + 1;
      assert k * align == p / align * align + align == RoundUp(p, align);
      MultipleLaw(k, align);
    }
  }

  /** `std::align`: where the object would start, if it fits into the space left. */
  function Align(align: nat, size: nat, p: nat, space: nat): Option<nat>
    requires 0 < align
  {
    var start := RoundUp(p, align);
    if size + (start - p) <= space then Some(start) else None
  }

  /** An address at which the object can be put into the free space of the newest block. */
  predicate Fits(s: Store, q: Request, a: nat)
    requires 0 < q.align
  {
    a % q.align == 0 && s.current <= a && a + q.size <= s.current + s.remaining
  }

  /** There is no multiple between `p` and where it is rounded up to. */
  lemma RoundUpIsLeast(p: nat, align: nat, a: nat)
    requires 0 < align && a % align == 0 && p <= a
    ensures RoundUp(p, align) <= a
  {
    RoundUpLaw(p, align);
    var r := RoundUp(p, align);
    var m, n := r / align, a / align;
    assert r == m * align && a == n * align;
    assert (m - n) * align == r - a;
    ProductBounds(m - n, align);
  }

  /** Something is found if and only if there is an address to find. */
  lemma AlignExactlyWhen(s: Store, q: Request)
    requires 0 < q.align
    ensures Align(q.align, q.size, s.current, s.remaining).Some? <==> exists a :: Fits(s, q, a)
  {
    hide RoundUp;
    RoundUpLaw(s.current, q.align);
    var start := RoundUp(s.current, q.align);
    if Align(q.align, q.size, s.current, s.remaining).Some? {
      assert Fits(s, q, start);
    } else if a :| Fits(s, q, a) {
      RoundUpIsLeast(s.current, q.align, a);
    }
  }

  function AddBlock(s: Store, minSize: nat, base: nat): Store {
    var size := if minSize > BLOCK_SIZE then minSize else BLOCK_SIZE;
    s.(blocks := s.blocks + [Block(base, size)], current := base, remaining := size)
  }

  /** Put the object at `start`, in the newest block. */
  function Place(s: Store, q: Request, start: nat): Store
    requires s.current <= start && q.size + (start - s.current) <= s.remaining
  {
    var o := Object(start, q.size, q.align, q.trivial);
    Store(s.blocks, start + q.size, s.remaining - (start - s.current) - q.size, s.objects + [o],
          if q.trivial then s.destructors else s.destructors + [o])
  }

  /** The retry after a new block has been added always fits. */
  lemma RetryFits(s: Store, q: Request)
    requires 0 < q.align
    ensures var t := AddBlock(s, q.size + q.align, q.base);
      Align(q.align, q.size, t.current, t.remaining).Some?
  {
    RoundUpLaw(q.base, q.align);
  }

  function Construct(s: Store, q: Request): Store
    requires 0 < q.align
  {
    RoundUpLaw(s.current, q.align);
    var here := Align(q.align, q.size, s.current, s.remaining);
    if s.current != 0 && here.Some? then Place(s, q, here.value)
    else
      RetryFits(s, q);
      RoundUpLaw(q.base, q.align);
      var t := AddBlock(s, q.size + q.align, q.base);
      Place(t, q, Align(q.align, q.size, t.current, t.remaining).value)
  }

  // ----- safety -----

  predicate Apart(a: nat, aEnd: nat, b: nat, bEnd: nat) { aEnd <= b || bEnd <= a }

  /** The system's allocator hands out memory that overlaps no block in use. */
  predicate Granted(s: Store, q: Request) {
    var size := if q.size + q.align > BLOCK_SIZE then q.size + q.align else BLOCK_SIZE;
    forall i :: 0 <= i < |s.blocks| ==> Apart(s.blocks[i].base, s.blocks[i].End(), q.base, q.base + size)
  }

  predicate Inside(o: Object, b: Block) { b.base <= o.addr && o.End() <= b.End() }

  predicate BlocksApart(s: Store) {
    forall i, j :: 0 <= i < j < |s.blocks| ==>
      Apart(s.blocks[i].base, s.blocks[i].End(), s.blocks[j].base, s.blocks[j].End())
  }

  /** The object lies in a block; in the newest one it lies before the free space. */
  predicate Housed(s: Store, o: Object) {
    exists i :: 0 <= i < |s.blocks| && Inside(o, s.blocks[i]) && (i == |s.blocks| - 1 ==> o.End() <= s.current)
  }

  predicate ObjectsApart(s: Store) {
    forall i, j :: 0 <= i < j < |s.objects| ==>
      Apart(s.objects[i].addr, s.objects[i].End(), s.objects[j].addr, s.objects[j].End())
  }

  /** `current + remaining` is the end of the newest block. */
  predicate Bumping(s: Store) {
    if s.blocks == [] then s.current == 0 && s.remaining == 0
    else
      var b := s.blocks[|s.blocks| - 1];
      0 < b.base <= s.current && s.current + s.remaining == b.End()
  }

  /** The objects that need a destructor, in order of construction. */
  function Registered(os: seq<Object>): seq<Object> {
    if os == [] then []
    else
      var o := os[|os| - 1];
      Registered(os[..|os| - 1]) + if o.trivial then [] else [o]
  }

  /** The object is the one asked for. */
  predicate Serves(o: Object, q: Request) { o.size == q.size && o.align == q.align && o.trivial == q.trivial }

  predicate Aligned(o: Object) { 0 < o.align && 0 < o.size && o.addr % o.align == 0 }

  predicate Safe(s: Store) {
    && Bumping(s) && BlocksApart(s) && ObjectsApart(s)
    && (forall i :: 0 <= i < |s.objects| ==> Aligned(s.objects[i]) && Housed(s, s.objects[i]))
    && s.destructors == Registered(s.objects)
  }

  lemma HousedApart(s: Store, o: Object, start: nat, end: nat)
    requires Bumping(s) && BlocksApart(s) && s.blocks != [] && Housed(s, o)
    requires s.current <= start <= end <= s.blocks[|s.blocks| - 1].End()
    ensures Apart(o.addr, o.End(), start, end)
  {
    var i :| 0 <= i < |s.blocks| && Inside(o, s.blocks[i]) && (i == |s.blocks| - 1 ==> o.End() <= s.current);
    if i < |s.blocks| - 1 {
      assert Apart(s.blocks[i].base, s.blocks[i].End(), s.blocks[|s.blocks| - 1].base, s.blocks[|s.blocks| - 1].End());
    }
  }

  lemma PlaceIsSafe(s: Store, q: Request, start: nat)
    requires Safe(s) && s.blocks != [] && 0 < q.size && 0 < q.align && start % q.align == 0
    requires s.current <= start && q.size + (start - s.current) <= s.remaining
    ensures Safe(Place(s, q, start))
  {
    var t := Place(s, q, start);
    var o := t.objects[|s.objects|];
    var last := |s.blocks| - 1;
    forall i | 0 <= i < |t.objects| ensures Aligned(t.objects[i]) && Housed(t, t.objects[i]) {
      if i < |s.objects| {
        var k :| 0 <= k < |s.blocks| && Inside(s.objects[i], s.blocks[k]) && (k == last ==> s.objects[i].End() <= s.current);
        assert Inside(t.objects[i], t.blocks[k]);
      } else {
        assert Inside(o, t.blocks[last]);
      }
    }
    forall i, j | 0 <= i < j < |t.objects|
      ensures Apart(t.objects[i].addr, t.objects[i].End(), t.objects[j].addr, t.objects[j].End())
    {
      if j == |s.objects| {
        HousedApart(s, s.objects[i], start, o.End());
      }
    }
    assert t.objects[..|s.objects|] == s.objects;
  }

  lemma AddBlockIsSafe(s: Store, q: Request)
    requires Safe(s) && Granted(s, q) && 0 < q.base
    ensures Safe(AddBlock(s, q.size + q.align, q.base))
  {
    var t := AddBlock(s, q.size + q.align, q.base);
    forall i | 0 <= i < |t.objects| ensures Housed(t, t.objects[i]) {
      var k :| 0 <= k < |s.blocks| && Inside(s.objects[i], s.blocks[k]) && (k == |s.blocks| - 1 ==> s.objects[i].End() <= s.current);
      assert Inside(t.objects[i], t.blocks[k]);
    }
  }

  /** One more object: everything stays safe, the earlier objects stay where they are, a new block is
      taken if and only if the newest one has no address left at which the object fits, and less than
      the alignment is lost before the object. */
  lemma ConstructIsSafe(s: Store, q: Request)
    requires Safe(s) && q.Valid() && Granted(s, q)
    ensures var t := Construct(s, q);
      && Safe(t) && |t.objects| == |s.objects| + 1 && s.objects <= t.objects && s.blocks <= t.blocks
      && Serves(t.objects[|s.objects|], q)
      && (t.blocks == s.blocks <==> s.blocks != [] && exists a :: Fits(s, q, a))
      && var from := if t.blocks == s.blocks then s.current else q.base;
         from <= t.objects[|s.objects|].addr < from + q.align && t.current == t.objects[|s.objects|].End()
  {
    hide Safe, Granted, RoundUp, Fits;
    AlignExactlyWhen(s, q);
    SafeStart(s);
    RoundUpLaw(s.current, q.align);
    var here := Align(q.align, q.size, s.current, s.remaining);
    if s.current != 0 && here.Some? {
      PlaceIsSafe(s, q, here.value);
    } else {
      RetryFits(s, q);
      RoundUpLaw(q.base, q.align);
      AddBlockIsSafe(s, q);
      var t := AddBlock(s, q.size + q.align, q.base);
      PlaceIsSafe(t, q, Align(q.align, q.size, t.current, t.remaining).value);
    }
  }

  lemma SafeStart(s: Store)
    requires Safe(s)
    ensures s.current != 0 <==> s.blocks != []
  {
  }

  function ConstructAll(s: Store, qs: seq<Request>): Store
    requires forall i :: 0 <= i < |qs| ==> qs[i].Valid()
    decreases qs
  {
    if qs == [] then s
    else
      assert qs[0].Valid();
      ConstructAll(Construct(s, qs[0]), qs[1..])
  }

  /** At every request the system's allocator keeps its promise. */
  predicate AllGranted(s: Store, qs: seq<Request>)
    requires forall i :: 0 <= i < |qs| ==> qs[i].Valid()
    decreases qs
  {
    qs == [] || (assert qs[0].Valid(); Granted(s, qs[0]) && AllGranted(Construct(s, qs[0]), qs[1..]))
  }

  /** Over any sequence of requests: each object is aligned and inside one block, all objects are
      disjoint, earlier ones do not move, and each request has made one object. */
  lemma {:induction false} AllConstructedSafe(s: Store, qs: seq<Request>)
    requires Safe(s) && (forall i :: 0 <= i < |qs| ==> qs[i].Valid()) && AllGranted(s, qs)
    ensures var t := ConstructAll(s, qs);
      && Safe(t) && s.objects <= t.objects && |t.objects| == |s.objects| + |qs|
      && forall j :: 0 <= j < |qs| ==> Serves(t.objects[|s.objects| + j], qs[j])
    decreases qs
  {
    hide Safe, Granted, Construct, Serves;
    if qs != [] {
      assert qs[0].Valid();
      var s1, t := Construct(s, qs[0]), ConstructAll(s, qs);
      ConstructIsSafe(s, qs[0]);
      AllConstructedSafe(s1, qs[1..]);
      forall j | 0 <= j < |qs| ensures Serves(t.objects[|s.objects| + j], qs[j]) {
        if j > 0 {
          assert Serves(t.objects[|s1.objects| + (j - 1)], qs[1..][j - 1]);
        }
      }
    }
  }

  function Reversed(os: seq<Object>): (r: seq<Object>)
    ensures |r| == |os|
  {
    if os == [] then [] else [os[|os| - 1]] + Reversed(os[..|os| - 1])
  }

  lemma {:induction false} ReversedAt(os: seq<Object>, i: nat)
    requires i < |os|
    ensures Reversed(os)[i] == os[|os| - 1 - i]
    decreases os
  {
    if i > 0 {
      ReversedAt(os[..|os| - 1], i - 1);
    }
  }

  lemma {:induction false} RegisteredSublist(os: seq<Object>)
    ensures forall o :: o in Registered(os) <==> o in os && !o.trivial
    ensures |Registered(os)| <= |os|
    decreases os
  {
    if os != [] {
      var n := |os| - 1;
      RegisteredSublist(os[..n]);
      assert os == os[..n] + [os[n]];
    }
  }

  // ----- the class -----

  class Arena {
    var blocks: seq<Block>
    var current: nat
    var remaining: nat
    var destructors: seq<Object>
    ghost var objects: seq<Object>

    ghost function State(): Store
      reads this
    {
      Store(blocks, current, remaining, objects, destructors)
    }

    constructor ()
      ensures State() == EMPTY_STORE && Safe(State())
    {
      blocks, current, remaining, destructors, objects := [], 0, 0, [], [];
    }

    method NewBlock(minSize: nat, base: nat)
      modifies this
      ensures State() == AddBlock(old(State()), minSize, base)
    {
      var size := if minSize > BLOCK_SIZE then minSize else BLOCK_SIZE;
      current := base;
      remaining := size;
      blocks := blocks + [Block(base, size)];
    }

    /** Construct an object; returns its address. */
    method ConstructObject(q: Request) returns (result: nat)
      requires Safe(State()) && q.Valid() && Granted(State(), q)
      modifies this
      ensures State() == Construct(old(State()), q) && Safe(State())
      ensures |objects| == |old(objects)| + 1 && objects[..|old(objects)|] == old(objects)
      ensures objects[|old(objects)|] == Object(result, q.size, q.align, q.trivial)
      ensures result % q.align == 0
    {
      hide Safe, Granted, RoundUp;
      ConstructIsSafe(State(), q);
      RoundUpLaw(current, q.align);
      RetryFits(State(), q);
      RoundUpLaw(q.base, q.align);
      var ptr, space := current, remaining;
      var start := Align(q.align, q.size, ptr, space);
      if current == 0 || start == None {
        NewBlock(q.size + q.align, q.base);
        ptr, space := current, remaining;
        start := Align(q.align, q.size, ptr, space);
      }
      space := space - (start.value - ptr);
      result := start.value;
      remaining := space - q.size;
      current := result + q.size;
      var o := Object(result, q.size, q.align, q.trivial);
      objects := objects + [o];
      if !q.trivial {
        destructors := destructors + [o];
      }
    }

    /** The destructor: returns the objects in the order in which they are destroyed, which is
        exactly the reverse of the order of construction, trivial ones left out. */
    method Destroy() returns (order: seq<Object>)
      requires Safe(State())
      ensures order == Reversed(Registered(objects))
    {
      order := [];
      var i := |destructors|;
      assert destructors[..|destructors|] == destructors;
      while i > 0
        invariant 0 <= i <= |destructors|
        invariant order + Reversed(destructors[..i]) == Reversed(destructors)
      {
        i := i - 1;
        assert destructors[..i + 1][..i] == destructors[..i];
        order := order + [destructors[i]];
      }
    }
  }
}
