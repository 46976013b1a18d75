/**
  * The packet queues between the network thread and the logic thread (network/queue.h), over
  * the memory pool.
  */
module PacketQueues {
  import opened Ring
  import opened PacketPool

  /** NetPacketBuffer: the body lives in the memory `ref` points to. */
  datatype Item = Item(client: nat, fd: int, proto: int, size: nat, ref: Ref)

  /** A packet as its user sees it. */
  datatype Msg = Msg(client: nat, fd: int, proto: int, body: seq<Byte>)

  /** NetPacketQueue; `num` is the separate packet counter. */
  datatype Queue = Queue(num: int, vec: seq<Item>)

  /** The counter may be stale, but never too small. */
  predicate QueueOk(q: Queue) { q.num >= |q.vec| }

  function Refs(vec: seq<Item>): (r: seq<Ref>)
    ensures |r| == |vec|
  {
    seq(|vec|, k requires 0 <= k < |vec| => vec[k].ref)
  }

  predicate Readable(p: Pool, it: Item) { Exists(p, it.ref) && it.size <= |GetBuffer(At(p, it.ref))| }

  function View(p: Pool, it: Item): Msg {
    Msg(it.client, it.fd, it.proto, if Readable(p, it) then GetBuffer(At(p, it.ref))[..it.size] else [])
  }

  function Views(p: Pool, vec: seq<Item>): (v: seq<Msg>)
    ensures |v| == |vec|
  {
    seq(|vec|, k requires 0 <= k < |vec| => View(p, vec[k]))
  }

  /** CopyFrom as the code does it: insert behind the old packets if the counter is
      positive, swap the vectors otherwise. */
  function Joined(q: Queue, other: Queue): Queue {
    if q.num > 0 then Queue(|q.vec + other.vec|, q.vec + other.vec) else Queue(|other.vec|, other.vec)
  }

  /** Either way the packets are appended, although the counter may be stale; the counter is
      exact afterwards. */
  lemma JoinedAppends(q: Queue, other: Queue)
    requires QueueOk(q)
    ensures Joined(q, other) == Queue(|q.vec| + |other.vec|, q.vec + other.vec)
  { }

  /** With a counter that is too small, packets would be lost. */
  lemma JoinedLoses(q: Queue, other: Queue)
    ensures Joined(q, other).vec == q.vec + other.vec <==> q.num > 0 || q.vec == []
  { }

  lemma RefsJoin(a: seq<Item>, b: seq<Item>)
    ensures Refs(a + b) == Refs(a) + Refs(b)
  { }

  lemma RefIn(vec: seq<Item>, k: nat)
    requires k < |vec|
    ensures vec[k].ref in multiset(Refs(vec))
  {
    assert Refs(vec)[k] == vec[k].ref;
  }

  /** Packets whose memories keep their bytes look the same. */
  lemma ViewsSame(p: Pool, q: Pool, vec: seq<Item>)
    requires SameBytes(p, q, multiset(Refs(vec)))
    ensures Views(q, vec) == Views(p, vec)
  {
    forall k | 0 <= k < |vec| ensures View(q, vec[k]) == View(p, vec[k]) { RefIn(vec, k); }
  }

  predicate AllHeld(refs: seq<Ref>, held: multiset<Ref>) { multiset(refs) <= held }

  lemma AddedSame(p: Pool, q: Pool, t: Pool, held: multiset<Ref>, r: Ref)
    requires SameBytes(p, q, held) && r !in held && SameBytes(q, t, Minus(held + multiset{r}, r))
    ensures SameBytes(p, t, held)
  { }

  lemma AddedViews(p: Pool, t: Pool, held: multiset<Ref>, vec: seq<Item>, it: Item)
    requires AllHeld(Refs(vec), held) && SameBytes(p, t, held)
    ensures Views(t, vec + [it]) == Views(p, vec) + [View(t, it)]
    ensures AllHeld(Refs(vec + [it]), held + multiset{it.ref})
  {
    forall x | x in multiset(Refs(vec)) ensures x in held { assert multiset(Refs(vec))[x] <= held[x]; }
    ViewsSame(p, t, vec);
    RefsJoin(vec, [it]);
    assert Refs([it]) == [it.ref];
  }

  class NetPacketQueue {
    var num: int
    var vec: seq<Item>

    function Value(): Queue
      reads this
    {
      Queue(num, vec)
    }

    constructor ()
      ensures Value() == Queue(0, [])
    {
      num, vec := 0, [];
    }

    method Init()
      modifies this
      ensures Value() == Queue(0, [])
    {
      num, vec := 0, [];
    }

    /** CopyFrom: append and drain. */
    method CopyFrom(other: NetPacketQueue) returns (n: int)
      requires other != this && QueueOk(Value())
      modifies this, other
      ensures vec == old(vec) + old(other.vec) && num == |vec| && n == num
      ensures other.Value() == Queue(0, [])
    {
      JoinedAppends(Value(), other.Value());
      if num > 0 {
        vec := vec + other.vec;
        num := |vec|;
        other.Init();
        return num;
      }
      vec, other.vec := other.vec, vec;
      num := |vec|;
      other.Init();
      return num;
    }

    /** AddPacket: the body goes to a memory nobody else holds and reads back unchanged. */
    method AddPacket(pool: PacketMemoryPool, client: nat, fd: int, proto: int, body: seq<Byte>) returns (n: int)
      requires pool.Valid() && AllHeld(Refs(vec), pool.held) && |body| <= MAX_SIZE
      modifies this, pool, pool.mem
      ensures pool.Valid() && AllHeld(Refs(vec), pool.held) && num == old(num) + 1 == n
      ensures |vec| == |old(vec)| + 1 && vec[..|old(vec)|] == old(vec)
      ensures pool.held == old(pool.held) + multiset{vec[|old(vec)|].ref} && vec[|old(vec)|].ref !in old(pool.held)
      ensures Views(pool.Value(), vec) == Views(old(pool.Value()), old(vec)) + [Msg(client, fd, proto, body)]
      ensures SameBytes(old(pool.Value()), pool.Value(), old(pool.held))
    {
      ghost var p, held := pool.Value(), pool.held;
      hide PoolOk, Owned, Exists, At, SameBytes, AllHeld, Views;
      var r := pool.GetFreePacketMemory();
      ghost var q := pool.Value();
      pool.Init(r, body);
      AddedSame(p, q, pool.Value(), held, r);
      var it := Item(client, fd, proto, |body|, r);
      assert View(pool.Value(), it) == Msg(client, fd, proto, body);
      AddedViews(p, pool.Value(), held, vec, it);
      vec := vec + [it];
      num := num + 1;
      return num;
    }

    /** ReleaseAllPackets: every packet's memory is given back once; the counter is left as
        it is. */
    method ReleaseAllPackets(pool: PacketMemoryPool)
      requires pool.Valid() && AllHeld(Refs(vec), pool.held)
      modifies this, pool, pool.mem
      ensures pool.Valid() && pool.held == old(pool.held) - multiset(Refs(old(vec)))
      ensures vec == [] && num == old(num)
      ensures SameBytes(old(pool.Value()), pool.Value(), pool.held)
    {
      ReleaseMemories(pool, Refs(vec));
      vec := [];
    }
  }

  function Less(held: multiset<Ref>, refs: seq<Ref>): multiset<Ref> { held - multiset(refs) }

  method ReleaseMemories(pool: PacketMemoryPool, refs: seq<Ref>)
    requires pool.Valid() && AllHeld(refs, pool.held)
    modifies pool, pool.mem
    ensures pool.Valid() && pool.held == Less(old(pool.held), refs)
    ensures SameBytes(old(pool.Value()), pool.Value(), pool.held)
  {
    ghost var before, p := pool.held, pool.Value();
    SameSelf(p, before);
    assert Less(before, refs[..0]) == before;
    hide PoolOk, Owned, Exists, At, SameBytes, GetBuffer, Less, Minus, AllHeld;
    for i := 0 to |refs|
      invariant pool.Valid() && pool.held == Less(before, refs[..i])
      invariant SameBytes(p, pool.Value(), pool.held)
    {
      NextHeld(before, refs, i);
      ghost var q, held := pool.Value(), pool.held;
      HeldMeans(q, held, refs[i]);
      pool.ReleasePacketMemory(refs[i]);
      SameAcross(p, q, pool.Value(), held, pool.held);
    }
    assert refs[..|refs|] == refs;
  }

  lemma NextHeld(held: multiset<Ref>, refs: seq<Ref>, i: nat)
    requires i < |refs| && AllHeld(refs, held)
    ensures refs[i] in Less(held, refs[..i])
    ensures Minus(Less(held, refs[..i]), refs[i]) <= Less(held, refs[..i])
    ensures Less(held, refs[..i + 1]) == Minus(Less(held, refs[..i]), refs[i])
  {
    assert refs[..i + 1] == refs[..i] + [refs[i]];
    assert refs == refs[..i + 1] + refs[i + 1..];
    assert multiset(refs)[refs[i]] >= multiset(refs[..i + 1])[refs[i]];
  }
}
