/**
  * The six packet queues of a server context over one memory pool (network/context.h), and
  * what the elementary operations on them do to the packets as their users see them.
  */
module SixQueues {
  import opened PacketPool
  import opened PacketQueues

  const QUEUES: nat := 6

  /** `freed[k]` packets at the front of queue k are already released by a
      ReleaseAllPackets that is still under way. */
  datatype Pipe = Pipe(pool: Pool, queues: seq<Queue>, freed: seq<nat>)

  predicate Shape(s: Pipe) {
    && |s.queues| == QUEUES == |s.freed|
    && forall k :: 0 <= k < QUEUES ==> s.freed[k] <= |s.queues[k].vec| && QueueOk(s.queues[k])
  }

  function Live(s: Pipe, k: nat): seq<Item>
    requires Shape(s) && k < QUEUES
  {
    s.queues[k].vec[s.freed[k]..]
  }

  /** The packets of queue k with the bytes their memories hold. */
  function Show(s: Pipe, k: nat): seq<Msg>
    requires Shape(s) && k < QUEUES
  {
    Views(s.pool, Live(s, k))
  }

  function Sum(m: seq<multiset<Ref>>): multiset<Ref> {
    if m == [] then multiset{} else Sum(m[..|m| - 1]) + m[|m| - 1]
  }

  function Parts(s: Pipe): (m: seq<multiset<Ref>>)
    requires Shape(s)
    ensures |m| == QUEUES && forall k :: 0 <= k < QUEUES ==> m[k] == multiset(Refs(Live(s, k)))
  {
    seq(QUEUES, k requires 0 <= k < QUEUES => multiset(Refs(Live(s, k))))
  }

  /** All memories held by packets in the queues. */
  function Held(s: Pipe): multiset<Ref>
    requires Shape(s)
  {
    Sum(Parts(s))
  }

  /** Every memory of the pool is free, once, or held by exactly one packet of one queue. */
  predicate PipeOk(s: Pipe) { Shape(s) && PoolOk(s.pool) && Owned(s.pool, Held(s)) }

  // ---- sums ---------------------------------------------------------------------------------

  lemma {:induction false} SumGrows(m: seq<multiset<Ref>>, k: nat, x: multiset<Ref>)
    requires k < |m|
    ensures Sum(m[k := m[k] + x]) == Sum(m) + x
  {
    var n := |m| - 1;
    var t := m[k := m[k] + x];
    if k == n {
      assert t[..n] == m[..n];
    } else {
      SumGrows(m[..n], k, x);
      assert t[..n] == m[..n][k := m[..n][k] + x];
    }
  }

  lemma {:induction false} SumHas(m: seq<multiset<Ref>>, k: nat)
    requires k < |m|
    ensures m[k] <= Sum(m)
  {
    if k < |m| - 1 { SumHas(m[..|m| - 1], k); }
  }

  lemma HeldIn(s: Pipe, k: nat)
    requires Shape(s) && k < QUEUES
    ensures multiset(Refs(Live(s, k))) <= Held(s)
  {
    SumHas(Parts(s), k);
  }

  lemma PartsChange(s: Pipe, t: Pipe, k: nat)
    requires Shape(s) && Shape(t) && k < QUEUES
    requires forall j :: 0 <= j < QUEUES && j != k ==> Live(t, j) == Live(s, j)
    ensures Parts(t) == Parts(s)[k := multiset(Refs(Live(t, k)))]
  { }

  /** Taking packets away from queue k, or putting them in, changes the held memories by theirs. */
  lemma HeldChange(s: Pipe, t: Pipe, k: nat, items: seq<Item>)
    requires Shape(s) && Shape(t) && k < QUEUES
    requires forall j :: 0 <= j < QUEUES && j != k ==> Live(t, j) == Live(s, j)
    requires multiset(Refs(Live(t, k))) == multiset(Refs(Live(s, k))) + multiset(Refs(items))
    ensures Held(t) == Held(s) + multiset(Refs(items))
  {
    hide Sum, Refs, Live;
    PartsChange(s, t, k);
    SumGrows(Parts(s), k, multiset(Refs(items)));
  }

  lemma RefsOne(it: Item)
    ensures multiset(Refs([it])) == multiset{it.ref}
  { }

  /** A pool that keeps the bytes of all held memories shows the same packets. */
  lemma ShowSame(s: Pipe, pool: Pool, held: multiset<Ref>, k: nat)
    requires Shape(s) && k < QUEUES && SameBytes(s.pool, pool, held) && multiset(Refs(Live(s, k))) <= held
    ensures Views(pool, Live(s, k)) == Show(s, k)
  {
    var refs := multiset(Refs(Live(s, k)));
    forall x | x in refs ensures x in held { assert refs[x] <= held[x]; }
    ViewsSame(s.pool, pool, Live(s, k));
  }

  // ---- adding a packet -------------------------------------------------------------------------

  /** AddPacket on queue k. */
  function Added(s: Pipe, k: nat, m: Msg): Pipe
    requires PipeOk(s) && k < QUEUES && |m.body| <= MAX_SIZE
  {
    GetKeeps(s.pool, Held(s));
    var r, p, q := Next(s.pool), Got(s.pool), s.queues[k];
    s.(pool := Put(p, r, Stored(At(p, r), m.body)),
       queues := s.queues[k := Queue(q.num + 1, q.vec + [Item(m.client, m.fd, m.proto, |m.body|, r)])])
  }

  lemma AddedPool(s: Pipe, m: Msg)
    requires PipeOk(s) && |m.body| <= MAX_SIZE
    ensures Exists(Got(s.pool), Next(s.pool)) && |At(Got(s.pool), Next(s.pool)).small| == SMALL
    ensures var r, p := Next(s.pool), Got(s.pool);
      var t := Put(p, r, Stored(At(p, r), m.body));
      && PoolOk(t) && Owned(t, Held(s) + multiset{r}) && SameBytes(s.pool, t, Held(s))
      && View(t, Item(m.client, m.fd, m.proto, |m.body|, r)) == m
  {
    var held := Held(s);
    hide Held;
    GetKeeps(s.pool, held);
    var r, p := Next(s.pool), Got(s.pool);
    var mem := At(p, r);
    StoredReadsBack(mem, m.body);
    PutKeeps(p, held + multiset{r}, r, Stored(mem, m.body));
    var t := Put(p, r, Stored(mem, m.body));
    AddedSame(s.pool, p, t, held, r);
  }

  /** The packet appears at the end of queue k, with its bytes; no other packet changes. */
  lemma AddKeeps(s: Pipe, k: nat, m: Msg)
    requires PipeOk(s) && k < QUEUES && |m.body| <= MAX_SIZE
    ensures PipeOk(Added(s, k, m))
    ensures Show(Added(s, k, m), k) == Show(s, k) + [m]
    ensures forall j :: 0 <= j < QUEUES && j != k ==> Show(Added(s, k, m), j) == Show(s, j)
  {
    AddedPool(s, m);
    var t := Added(s, k, m);
    var r := Next(s.pool);
    var it := Item(m.client, m.fd, m.proto, |m.body|, r);
    hide PoolOk, Owned, SameBytes, Stored, View, Held, Refs;
    assert Live(t, k) == Live(s, k) + [it];
    RefsJoin(Live(s, k), [it]);
    RefsOne(it);
    HeldChange(s, t, k, [it]);
    forall j | 0 <= j < QUEUES ensures Views(t.pool, Live(s, j)) == Show(s, j) {
      HeldIn(s, j);
      ShowSame(s, t.pool, Held(s), j);
    }
    assert Views(t.pool, Live(s, k) + [it]) == Views(t.pool, Live(s, k)) + [View(t.pool, it)];
  }

  // ---- moving packets ----------------------------------------------------------------------------

  /** CopyFrom: queue `from` is appended to queue `to` and emptied. */
  function Copied(s: Pipe, from: nat, to: nat): Pipe
    requires |s.queues| == QUEUES && from < QUEUES && to < QUEUES
  {
    s.(queues := s.queues[to := Joined(s.queues[to], s.queues[from])][from := Queue(0, [])])
  }

  lemma CopyKeeps(s: Pipe, from: nat, to: nat)
    requires PipeOk(s) && from < QUEUES && to < QUEUES && from != to && s.freed[from] == 0 == s.freed[to]
    ensures PipeOk(Copied(s, from, to))
    ensures Show(Copied(s, from, to), to) == Show(s, to) + Show(s, from) && Show(Copied(s, from, to), from) == []
    ensures forall j :: 0 <= j < QUEUES && j != from && j != to ==> Show(Copied(s, from, to), j) == Show(s, j)
    ensures Copied(s, from, to).queues[to].num == |Show(s, to)| + |Show(s, from)|
  {
    hide PoolOk, Owned;
    var t := Copied(s, from, to);
    JoinedAppends(s.queues[to], s.queues[from]);
    CopiedHeld(s, from, to);
    hide Held;
    assert Live(t, to) == Live(s, to) + Live(s, from) && Live(t, from) == [];
  }

  lemma CopiedHeld(s: Pipe, from: nat, to: nat)
    requires Shape(s) && from < QUEUES && to < QUEUES && from != to && s.freed[from] == 0 == s.freed[to]
    ensures Shape(Copied(s, from, to)) && Held(Copied(s, from, to)) == Held(s)
  {
    var t := Copied(s, from, to);
    JoinedAppends(s.queues[to], s.queues[from]);
    var items := Live(s, from);
    var half := s.(queues := s.queues[from := Queue(0, [])]);
    assert Live(half, from) == [] && Live(t, to) == Live(s, to) + items && Live(half, to) == Live(s, to);
    assert multiset(Refs([])) == multiset{};
    RefsJoin(Live(s, to), items);
    hide Held, Refs;
    assert forall j :: 0 <= j < QUEUES && j != from ==> Live(half, j) == Live(s, j);
    assert forall j :: 0 <= j < QUEUES && j != to ==> Live(t, j) == Live(half, j);
    HeldChange(half, s, from, items);
    HeldChange(half, t, to, items);
  }

  // ---- releasing packets ---------------------------------------------------------------------------

  /** One turn of the loop in ReleaseAllPackets on queue k. */
  function ReleasedOne(s: Pipe, k: nat): Pipe
    requires Shape(s) && k < QUEUES && s.freed[k] < |s.queues[k].vec|
    requires Exists(s.pool, s.queues[k].vec[s.freed[k]].ref)
  {
    s.(pool := Released(s.pool, s.queues[k].vec[s.freed[k]].ref), freed := s.freed[k := s.freed[k] + 1])
  }

  lemma FrontHeld(s: Pipe, k: nat)
    requires PipeOk(s) && k < QUEUES && s.freed[k] < |s.queues[k].vec|
    ensures var r := s.queues[k].vec[s.freed[k]].ref; r in Held(s) && Exists(s.pool, r)
  {
    var r := s.queues[k].vec[s.freed[k]].ref;
    HeldIn(s, k);
    RefIn(Live(s, k), 0);
    assert multiset(Refs(Live(s, k)))[r] <= Held(s)[r];
    HeldMeans(s.pool, Held(s), r);
  }

  /** The first packet of queue k disappears; no other packet changes. */
  lemma ReleaseOneKeeps(s: Pipe, k: nat)
    requires PipeOk(s) && k < QUEUES && s.freed[k] < |s.queues[k].vec|
    ensures Exists(s.pool, s.queues[k].vec[s.freed[k]].ref)
    ensures PipeOk(ReleasedOne(s, k))
    ensures Show(ReleasedOne(s, k), k) == Show(s, k)[1..]
    ensures forall j :: 0 <= j < QUEUES && j != k ==> Show(ReleasedOne(s, k), j) == Show(s, j)
  {
    hide PoolOk, Owned, SameBytes, Released, Held, Refs, Exists, Views;
    FrontHeld(s, k);
    var t := ReleasedOne(s, k);
    var r := s.queues[k].vec[s.freed[k]].ref;
    ReleaseKeeps(s.pool, Held(s), r);
    ReleasedParts(s, k);
    assert Minus(Held(t) + multiset{r}, r) == Held(t);
    forall j | 0 <= j < QUEUES ensures Views(t.pool, Live(t, j)) == Views(s.pool, Live(t, j)) {
      HeldIn(t, j);
      ShowSame(t.(pool := s.pool), t.pool, Held(t), j);
    }
    assert Live(t, k) == Live(s, k)[1..];
    ViewsTail(s.pool, Live(s, k));
  }

  lemma ViewsTail(p: Pool, vec: seq<Item>)
    requires vec != []
    ensures Views(p, vec[1..]) == Views(p, vec)[1..]
  { }

  lemma ReleasedParts(s: Pipe, k: nat)
    requires Shape(s) && k < QUEUES && s.freed[k] < |s.queues[k].vec|
    requires Exists(s.pool, s.queues[k].vec[s.freed[k]].ref)
    ensures Shape(ReleasedOne(s, k))
    ensures Held(s) == Held(ReleasedOne(s, k)) + multiset{s.queues[k].vec[s.freed[k]].ref}
  {
    var t := ReleasedOne(s, k);
    var it := s.queues[k].vec[s.freed[k]];
    assert Live(s, k) == [it] + Live(t, k);
    RefsJoin([it], Live(t, k));
    RefsOne(it);
    hide Released, Held, Refs;
    assert forall j :: 0 <= j < QUEUES && j != k ==> Live(s, j) == Live(t, j);
    HeldChange(t, s, k, [it]);
  }

  /** The end of ReleaseAllPackets: the vector is cleared, the counter is not. */
  function Cleared(s: Pipe, k: nat): Pipe
    requires Shape(s) && k < QUEUES
  {
    s.(queues := s.queues[k := s.queues[k].(vec := [])], freed := s.freed[k := 0])
  }

  lemma ClearKeeps(s: Pipe, k: nat)
    requires PipeOk(s) && k < QUEUES && s.freed[k] == |s.queues[k].vec|
    ensures PipeOk(Cleared(s, k)) && forall j :: 0 <= j < QUEUES ==> Show(Cleared(s, k), j) == Show(s, j)
    ensures Cleared(s, k).queues[k] == Queue(s.queues[k].num, [])
  {
    hide PoolOk, Owned;
    var t := Cleared(s, k);
    assert forall j :: 0 <= j < QUEUES ==> Live(t, j) == Live(s, j);
    assert Parts(t) == Parts(s);
  }

  /** Each pool index 0..4095 is in the free queue once, or held by exactly one packet. */
  lemma PoolConserved(s: Pipe, i: nat)
    requires PipeOk(s) && i < POOL
    ensures Held(s)[Pooled(i)] + multiset(FreeRefs(s.pool))[Pooled(i)] == 1
  {
    OwnedMeans(s.pool, Held(s), i);
  }

  /** Two packets of the queues never share a memory. */
  lemma NoSharing(s: Pipe, j: nat, k: nat, a: nat, b: nat)
    requires PipeOk(s) && j < QUEUES && k < QUEUES && a < |Live(s, j)| && b < |Live(s, k)| && (j != k || a != b)
    ensures Live(s, j)[a].ref != Live(s, k)[b].ref
  {
    var r := Live(s, j)[a].ref;
    if r == Live(s, k)[b].ref {
      HeldIn(s, j);
      RefIn(Live(s, j), a);
      assert Held(s)[r] >= 1;
      HeldMeans(s.pool, Held(s), r);
      Twice(s, j, k, a, b);
    }
  }

  lemma Twice(s: Pipe, j: nat, k: nat, a: nat, b: nat)
    requires Shape(s) && j < QUEUES && k < QUEUES && a < |Live(s, j)| && b < |Live(s, k)| && (j != k || a != b)
    requires Live(s, j)[a].ref == Live(s, k)[b].ref
    ensures Held(s)[Live(s, j)[a].ref] >= 2
  {
    hide Live, Sum;
    var m, r := Parts(s), Live(s, j)[a].ref;
    if j == k {
      if a < b { TwoPlaces(Refs(Live(s, j)), a, b); } else { TwoPlaces(Refs(Live(s, j)), b, a); }
      SumHas(m, j);
    } else {
      RefIn(Live(s, j), a);
      RefIn(Live(s, k), b);
      var half := m[j := multiset{}];
      SumGrows(half, j, m[j]);
      assert half[j] + m[j] == m[j];
      assert half[j := half[j] + m[j]] == m;
      SumHas(half, k);
    }
  }

  lemma TwoPlaces(refs: seq<Ref>, a: nat, b: nat)
    requires a < b < |refs| && refs[a] == refs[b]
    ensures multiset(refs)[refs[a]] >= 2
  {
    var r := refs[a];
    assert refs == refs[..a + 1] + refs[a + 1..];
    assert refs[..a + 1][a] == r && refs[a + 1..][b - a - 1] == r;
    assert multiset(refs)[r] == multiset(refs[..a + 1])[r] + multiset(refs[a + 1..])[r];
  }
}
