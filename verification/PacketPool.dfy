/**
  * The pool of packet memories (network/packet_pool.h): 4096 fixed blocks handed out through
  * a queue of free indices, single blocks from the heap once the pool is used up.
  */
module PacketPool {
  import opened Ring

  const POOL: nat := 4096
  const SMALL: nat := 256
  const MAX_SIZE: nat := 10240

  datatype Space = NoSpace | Space(bytes: seq<Byte>)

  /** ST_PacketMemory. */
  datatype Memory = Memory(index: int, small: seq<Byte>, extra: Space)

  /** A pointer to a memory: block `i` of the pool, or the `n`-th block from the heap. */
  datatype Ref = Pooled(i: nat) | Extra(n: nat)

  datatype Pool = Pool(mem: seq<Memory>, free: seq<nat>, heap: map<nat, Memory>, next: nat)

  function Zeros(n: nat): (z: seq<Byte>)
    ensures |z| == n
  {
    seq(n, i => 0)
  }

  /** construct. */
  function Blank(): Memory { Memory(0, Zeros(SMALL), NoSpace) }

  function GetBuffer(m: Memory): seq<Byte> {
    if m.extra.Space? then m.extra.bytes else m.small
  }

  /** ST_PacketMemory::Init: short bodies go to the fixed bytes, others to extra space. */
  function Stored(m: Memory, body: seq<Byte>): Memory
    requires |m.small| == SMALL
  {
    if |body| >= SMALL then m.(extra := Space(body)) else m.(small := body + m.small[|body|..])
  }

  /** The bytes of a stored body read back unchanged. */
  lemma StoredReadsBack(m: Memory, body: seq<Byte>)
    requires |m.small| == SMALL && m.extra == NoSpace
    ensures |GetBuffer(Stored(m, body))| >= |body| && GetBuffer(Stored(m, body))[..|body|] == body
    ensures Stored(m, body).index == m.index && |Stored(m, body).small| == SMALL
    ensures Stored(m, body).extra == NoSpace <==> |body| < SMALL
  { }

  predicate Exists(p: Pool, r: Ref) {
    match r
    case Pooled(i) => i < |p.mem|
    case Extra(n) => n in p.heap
  }

  function At(p: Pool, r: Ref): Memory
    requires Exists(p, r)
  {
    match r
    case Pooled(i) => p.mem[i]
    case Extra(n) => p.heap[n]
  }

  function Put(p: Pool, r: Ref, m: Memory): Pool
    requires Exists(p, r)
  {
    match r
    case Pooled(i) => p.(mem := p.mem[i := m])
    case Extra(n) => p.(heap := p.heap[n := m])
  }

  /** The reference GetFreePacketMemory returns, and the pool after it. */
  function Next(p: Pool): Ref { if p.free == [] then Extra(p.next) else Pooled(p.free[0]) }

  function Got(p: Pool): Pool
    requires p.free != [] ==> p.free[0] < |p.mem|
  {
    if p.free == [] then p.(heap := p.heap[p.next := Blank().(index := -1)], next := p.next + 1)
    else p.(free := p.free[1..], mem := p.mem[p.free[0] := p.mem[p.free[0]].(index := p.free[0])])
  }

  /** ReleasePacketMemory: the memory's own index decides where it goes. */
  function Released(p: Pool, r: Ref): Pool
    requires Exists(p, r)
  {
    var index := At(p, r).index;
    if index <= -1 then (if r.Extra? then p.(heap := p.heap - {r.n}) else p)
    else Put(p, r, Blank()).(free := p.free + [index])
  }

  // ---- who owns a memory ------------------------------------------------------------------

  /** All memories there are. */
  function Universe(p: Pool): set<Ref> {
    (set i | 0 <= i < |p.mem| :: Pooled(i)) + (set n | n in p.heap :: Extra(n))
  }

  function FreeRefs(p: Pool): (f: seq<Ref>)
    ensures |f| == |p.free|
  {
    seq(|p.free|, k requires 0 <= k < |p.free| => Pooled(p.free[k]))
  }

  /** Every memory is either free, once, or held, once. */
  predicate Owned(p: Pool, held: multiset<Ref>) {
    held + multiset(FreeRefs(p)) == multiset(Universe(p))
  }

  function Minus(held: multiset<Ref>, r: Ref): multiset<Ref> { held - multiset{r} }

  predicate PoolOk(p: Pool) {
    && |p.mem| == POOL
    && (forall k :: 0 <= k < |p.free| ==> p.free[k] < POOL && p.mem[p.free[k]].extra == NoSpace)
    && (forall i :: 0 <= i < POOL ==> |p.mem[i].small| == SMALL && (p.mem[i].index == i || i in p.free))
    && (forall n :: n in p.heap ==> n < p.next && |p.heap[n].small| == SMALL && p.heap[n].index == -1)
  }

  /** Each index 0..4095 is in the free queue exactly once or held exactly once, never both;
      and nothing is held twice. */
  lemma OwnedMeans(p: Pool, held: multiset<Ref>, i: nat)
    requires PoolOk(p) && Owned(p, held) && i < POOL
    ensures held[Pooled(i)] + multiset(FreeRefs(p))[Pooled(i)] == 1
    ensures held[Pooled(i)] == 1 <==> i !in p.free
  {
    FreeCount(p, i);
    assert (held + multiset(FreeRefs(p)))[Pooled(i)] == multiset(Universe(p))[Pooled(i)] == 1;
  }

  lemma FreeCount(p: Pool, i: nat)
    ensures Pooled(i) in multiset(FreeRefs(p)) <==> i in p.free
  {
    if i in p.free {
      var k :| 0 <= k < |p.free| && p.free[k] == i;
      assert FreeRefs(p)[k] == Pooled(i);
    }
    if Pooled(i) in FreeRefs(p) {
      var k :| 0 <= k < |FreeRefs(p)| && FreeRefs(p)[k] == Pooled(i);
      assert p.free[k] == i;
    }
  }

  /** A held memory exists, is held once, and knows its own index. */
  lemma HeldMeans(p: Pool, held: multiset<Ref>, r: Ref)
    requires PoolOk(p) && Owned(p, held) && r in held
    ensures Exists(p, r) && held[r] == 1
    ensures At(p, r).index == match r { case Pooled(i) => i case Extra(_) => -1 }
    ensures r.Pooled? ==> r.i !in p.free
  {
    assert multiset(Universe(p))[r] >= 1;
    assert r in Universe(p);
    if r.Pooled? { OwnedMeans(p, held, r.i); }
  }

  /** The memories in `held` exist in both pools and hold the same bytes. */
  ghost predicate SameBytes(p: Pool, q: Pool, held: multiset<Ref>) {
    forall r :: r in held ==> Exists(p, r) && Exists(q, r) && GetBuffer(At(q, r)) == GetBuffer(At(p, r))
  }

  lemma SameSelf(p: Pool, held: multiset<Ref>)
    requires PoolOk(p) && Owned(p, held)
    ensures SameBytes(p, p, held)
  {
    forall r | r in held ensures Exists(p, r) { HeldMeans(p, held, r); }
  }

  lemma SameAcross(p: Pool, q: Pool, r: Pool, more: multiset<Ref>, held: multiset<Ref>)
    requires SameBytes(p, q, more) && SameBytes(q, r, held) && held <= more
    ensures SameBytes(p, r, held)
  { }

  // ---- taking ---------------------------------------------------------------------------

  lemma GotUniverse(p: Pool)
    requires PoolOk(p)
    ensures p.free == [] ==> Universe(Got(p)) == Universe(p) + {Next(p)} && Next(p) !in Universe(p)
    ensures p.free != [] ==> Universe(Got(p)) == Universe(p) && FreeRefs(p) == [Next(p)] + FreeRefs(Got(p))
  { }

  /** GetFreePacketMemory hands out a memory that nobody holds. */
  lemma GetKeeps(p: Pool, held: multiset<Ref>)
    requires PoolOk(p) && Owned(p, held)
    ensures PoolOk(Got(p)) && Owned(Got(p), held + multiset{Next(p)})
    ensures Next(p) !in held && Exists(Got(p), Next(p))
    ensures At(Got(p), Next(p)).extra == NoSpace && |At(Got(p), Next(p)).small| == SMALL
    ensures SameBytes(p, Got(p), held)
  {
    var q := Got(p);
    GotUniverse(p);
    forall r | r in held ensures Exists(p, r) && Exists(q, r) && At(q, r) == At(p, r) && r != Next(p) {
      HeldMeans(p, held, r);
    }
    assert PoolOk(q) by { GetOk(p, held); }
    if p.free == [] {
      assert FreeRefs(q) == FreeRefs(p);
      assert multiset(Universe(q)) == multiset(Universe(p)) + multiset{Next(p)};
    } else {
      assert multiset(FreeRefs(p)) == multiset{Next(p)} + multiset(FreeRefs(q));
    }
  }

  lemma GetOk(p: Pool, held: multiset<Ref>)
    requires PoolOk(p) && Owned(p, held)
    ensures PoolOk(Got(p))
  { }

  /** Storing into a held memory leaves all others alone. */
  lemma PutKeeps(p: Pool, held: multiset<Ref>, r: Ref, m: Memory)
    requires PoolOk(p) && Owned(p, held) && r in held && Exists(p, r)
    requires m.index == At(p, r).index && |m.small| == SMALL
    ensures PoolOk(Put(p, r, m)) && Owned(Put(p, r, m), held)
    ensures Exists(Put(p, r, m), r) && At(Put(p, r, m), r) == m
    ensures SameBytes(p, Put(p, r, m), Minus(held, r))
  {
    HeldMeans(p, held, r);
    var q := Put(p, r, m);
    assert FreeRefs(q) == FreeRefs(p);
    assert q.heap.Keys == p.heap.Keys;
    assert Universe(q) == Universe(p);
    forall x | x in Minus(held, r) ensures Exists(p, x) && Exists(q, x) && At(q, x) == At(p, x) { HeldMeans(p, held, x); }
  }

  // ---- giving back ------------------------------------------------------------------------

  lemma ReleaseOk(p: Pool, held: multiset<Ref>, r: Ref)
    requires PoolOk(p) && Owned(p, held) && r in held && Exists(p, r)
    ensures PoolOk(Released(p, r))
  {
    HeldMeans(p, held, r);
    var q := Released(p, r);
    if r.Pooled? {
      assert q.free[|p.free|] == r.i;
      forall i | 0 <= i < POOL ensures q.mem[i].index == i || i in q.free {
        if i in p.free {
          var k :| 0 <= k < |p.free| && p.free[k] == i;
          assert q.free[k] == i;
        }
      }
    }
  }

  /** ReleasePacketMemory frees the memory it is given and no other. */
  lemma ReleaseKeeps(p: Pool, held: multiset<Ref>, r: Ref)
    requires PoolOk(p) && Owned(p, held) && r in held && Exists(p, r)
    ensures PoolOk(Released(p, r)) && Owned(Released(p, r), Minus(held, r))
    ensures SameBytes(p, Released(p, r), Minus(held, r))
  {
    HeldMeans(p, held, r);
    assert PoolOk(Released(p, r)) by { ReleaseOk(p, held, r); }
    var q := Released(p, r);
    forall x | x in Minus(held, r) ensures Exists(p, x) && Exists(q, x) && At(q, x) == At(p, x) { HeldMeans(p, held, x); }
    assert Owned(q, Minus(held, r)) by { ReleaseOwned(p, held, r); }
  }

  lemma ReleaseOwned(p: Pool, held: multiset<Ref>, r: Ref)
    requires PoolOk(p) && Owned(p, held) && r in held && Exists(p, r)
    ensures Owned(Released(p, r), Minus(held, r))
  {
    HeldMeans(p, held, r);
    hide PoolOk;
    var q := Released(p, r);
    var less := Minus(held, r);
    assert held == less + multiset{r};
    if r.Pooled? {
      assert FreeRefs(q) == FreeRefs(p) + [r];
      assert multiset(FreeRefs(q)) == multiset(FreeRefs(p)) + multiset{r};
      assert Universe(q) == Universe(p);
    } else {
      assert FreeRefs(q) == FreeRefs(p);
      assert q.heap.Keys == p.heap.Keys - {r.n};
      assert Universe(p) == Universe(q) + {r} && r !in Universe(q);
      assert multiset(Universe(p)) == multiset(Universe(q)) + multiset{r};
      Cancel(less, multiset(FreeRefs(p)), multiset(Universe(q)), r);
    }
  }

  lemma Cancel(a: multiset<Ref>, f: multiset<Ref>, u: multiset<Ref>, r: Ref)
    requires (a + multiset{r}) + f == u + multiset{r}
    ensures a + f == u
  {
    forall x: Ref ensures (a + f)[x] == u[x] {
      assert ((a + multiset{r}) + f)[x] == (u + multiset{r})[x];
    }
  }

  // ---- the pool ------------------------------------------------------------------------------

  function Blocks(n: nat): set<Ref> { set i | 0 <= i < n :: Pooled(i) }

  lemma {:induction false} BlocksOnce(n: nat)
    ensures multiset(seq(n, (i: nat) => Pooled(i))) == multiset(Blocks(n))
  {
    if n > 0 {
      BlocksOnce(n - 1);
      var s := seq(n, (i: nat) => Pooled(i));
      assert s == seq(n - 1, (i: nat) => Pooled(i)) + [Pooled(n - 1)];
      assert Blocks(n) == Blocks(n - 1) + {Pooled(n - 1)};
    }
  }

  lemma AllFree(p: Pool)
    requires |p.mem| == POOL && p.free == seq(POOL, i => i) && p.heap == map[]
    ensures Owned(p, multiset{})
  {
    BlocksOnce(POOL);
    assert FreeRefs(p) == seq(POOL, (i: nat) => Pooled(i));
    assert Universe(p) == Blocks(POOL);
  }

  class PacketMemoryPool {
    const mem: array<Memory>
    var free: seq<nat>
    var heap: map<nat, Memory>
    var next: nat
    ghost var held: multiset<Ref>

    function Value(): Pool
      reads this, mem
    {
      Pool(mem[..], free, heap, next)
    }

    ghost predicate Valid()
      reads this, mem
    {
      PoolOk(Value()) && Owned(Value(), held)
    }

    /** What is stored in a held memory. */
    function Bytes(r: Ref): seq<Byte>
      requires Exists(Value(), r)
      reads this, mem
    {
      GetBuffer(At(Value(), r))
    }

    constructor ()
      ensures Valid() && held == multiset{} && free == seq(POOL, i => i) && fresh(mem)
    {
      mem := new Memory[POOL](i => Blank().(index := i));
      free, heap, next, held := [], map[], 0, multiset{};
      new;
      for i := 0 to POOL
        invariant free == seq(i, k => k) && heap == map[] && held == multiset{}
        invariant forall k :: 0 <= k < POOL ==> mem[k] == Blank().(index := k)
      {
        free := free + [i];
      }
      AllFree(Value());
    }

    /** Hands out a memory nobody holds; the bytes of all held memories stay. */
    method GetFreePacketMemory() returns (r: Ref)
      requires Valid()
      modifies this, mem
      ensures Valid() && r !in old(held) && held == old(held) + multiset{r}
      ensures Exists(Value(), r) && At(Value(), r).extra == NoSpace && |At(Value(), r).small| == SMALL
      ensures old(free) != [] ==> r == Pooled(old(free)[0]) && free == old(free)[1..]
      ensures SameBytes(old(Value()), Value(), old(held))
    {
      ghost var p := Value();
      GetKeeps(p, held);
      hide PoolOk, Owned;
      if free == [] {
        r := Extra(next);
        heap, next := heap[next := Blank().(index := -1)], next + 1;
      } else {
        var i := free[0];
        r := Pooled(i);
        free := free[1..];
        mem[i] := mem[i].(index := i);
      }
      held := held + multiset{r};
      assert Value() == Got(p);
    }

    /** ST_PacketMemory::Init on a memory just handed out. */
    method Init(r: Ref, body: seq<Byte>)
      requires Valid() && r in held && Exists(Value(), r) && |body| <= MAX_SIZE
      requires At(Value(), r).extra == NoSpace && |At(Value(), r).small| == SMALL
      modifies this, mem
      ensures Valid() && held == old(held) && free == old(free)
      ensures Exists(Value(), r) && |Bytes(r)| >= |body| && Bytes(r)[..|body|] == body
      ensures SameBytes(old(Value()), Value(), Minus(held, r))
    {
      var p := Value();
      var m := At(p, r);
      StoredReadsBack(m, body);
      PutKeeps(p, held, r, Stored(m, body));
      hide PoolOk, Owned, Stored;
      match r
      case Pooled(i) => mem[i] := Stored(m, body);
      case Extra(n) => heap := heap[n := Stored(m, body)];
      assert Value() == Put(p, r, Stored(m, body));
    }

    /** Gives a held memory back; the bytes of all others stay. */
    method ReleasePacketMemory(r: Ref)
      requires Valid() && r in held && Exists(Value(), r)
      modifies this, mem
      ensures Valid() && held == Minus(old(held), r)
      ensures r.Pooled? ==> free == old(free) + [r.i]
      ensures SameBytes(old(Value()), Value(), held)
    {
      var p := Value();
      HeldMeans(p, held, r);
      ReleaseKeeps(p, held, r);
      hide PoolOk, Owned;
      var index := At(p, r).index;
      if index <= -1 {
        heap := heap - {r.n};
      } else {
        mem[r.i] := Blank();
        free := free + [index];
      }
      held := Minus(held, r);
      assert Value() == Released(p, r);
    }
  }
}
