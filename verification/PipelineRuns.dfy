/** Whole runs of the network thread and the logic thread (Pipeline): what every interleaving
    keeps, and when a wake-up is lost. */
module PipelineRuns {
  import opened Ring
  import opened PacketPool
  import opened PacketQueues
  import opened SixQueues
  import opened Pipeline

  // ---- whole runs ------------------------------------------------------------------------

  function FreshPool(): Pool {
    Pool(seq(POOL, i => Blank().(index := i)), seq(POOL, i => i), map[], 0)
  }

  function Init(): State {
    State(Pipe(FreshPool(), seq(QUEUES, k => Queue(0, [])), seq(QUEUES, k => 0)), false, Waiting, Idle,
          [], [], 0, [], [], 0, false, false)
  }

  lemma InitInv()
    ensures Inv(Init())
  {
    hide PipeOk;
    InitPipe();
    var p := Init().pipe;
    assert forall k :: 0 <= k < QUEUES ==> Show(p, k) == [];
  }

  lemma InitPipe()
    ensures PipeOk(Init().pipe)
  {
    var p := Init().pipe;
    AllFree(p.pool);
    assert Live(p, 0) == Live(p, 1) == Live(p, 2) == Live(p, 3) == Live(p, 4) == Live(p, 5) == [];
    NothingHeld(Parts(p));
    assert forall i :: 0 <= i < POOL ==> p.pool.free[i] == i;
  }

  lemma {:induction false} NothingHeld(m: seq<multiset<Ref>>)
    requires forall k :: 0 <= k < |m| ==> m[k] == multiset{}
    ensures Sum(m) == multiset{}
  {
    if m != [] { NothingHeld(m[..|m| - 1]); }
  }

  /** The state after a sequence of steps of the two threads in any order; a step that is not
      possible where it stands is skipped. */
  function After(acts: seq<Act>): (s: State)
    ensures Inv(s)
  {
    if acts == [] then
      InitInv();
      Init()
    else
      var r, a := After(acts[..|acts| - 1]), acts[|acts| - 1];
      if Ready(r, a) then
        StepKeeps(r, a);
        Do(r, a)
      else r
  }

  /** In every run: packets are handled in the order they were decoded, once each, with their
      bytes unchanged, and released once, after that; the sender serves what the handlers
      produced in the same way; and what is not released yet is in the queues. */
  lemma PacketsSafe(acts: seq<Act>)
    ensures var s := After(acts);
      && s.retired <= |s.handled| && s.handled <= s.arrived
      && s.arrived[s.retired..] == Show(s.pipe, LOGIC) + Show(s.pipe, RECV) + Show(s.pipe, PREP)
      && s.gone <= |s.served| && s.served <= s.produced
      && s.produced[s.gone..] == Show(s.pipe, CACHE) + Show(s.pipe, SENDQ) + Show(s.pipe, SPREP)
  {
    hide Do, Init, PipeOk, Show;
    var s := After(acts);
    assert Inv(s);
    hide After;
  }

  /** In every run each pool index is in the free queue once or held by exactly one packet. */
  lemma PoolSafe(acts: seq<Act>, i: nat)
    requires i < POOL
    ensures var p := After(acts).pipe; Held(p)[Pooled(i)] + multiset(FreeRefs(p.pool))[Pooled(i)] == 1
  {
    hide Do, Init, Flow, Out, Wake;
    PoolConserved(After(acts).pipe, i);
  }

  lemma EmptyHeld(p: Pipe)
    requires Shape(p) && forall k :: 0 <= k < QUEUES ==> Show(p, k) == []
    ensures Held(p) == multiset{}
  {
    forall k | 0 <= k < QUEUES ensures Parts(p)[k] == multiset{} {
      ShowLength(p, k);
      assert Live(p, k) == [] && Refs(Live(p, k)) == [];
    }
    NothingHeld(Parts(p));
  }

  /** Nothing leaks: with all queues empty the whole pool is free and the heap is not used. */
  lemma NothingLeaks(s: State, i: nat)
    requires Inv(s) && i < POOL && forall k :: 0 <= k < QUEUES ==> Show(s.pipe, k) == []
    ensures i in s.pipe.pool.free && s.pipe.pool.heap == map[]
  {
    hide Flow, Out, Wake, PoolOk, Show, Held;
    EmptyHeld(s.pipe);
    OwnedMeans(s.pipe.pool, Held(s.pipe), i);
    HeapUnused(s.pipe.pool);
  }

  lemma HeapUnused(p: Pool)
    requires Owned(p, multiset{})
    ensures p.heap == map[]
  {
    forall n: nat ensures n !in p.heap {
      assert forall k :: 0 <= k < |FreeRefs(p)| ==> FreeRefs(p)[k].Pooled?;
      assert Extra(n) !in multiset(FreeRefs(p));
      assert (multiset{} + multiset(FreeRefs(p)))[Extra(n)] == multiset(Universe(p))[Extra(n)];
      assert n in p.heap ==> Extra(n) in Universe(p);
    }
  }

  // ---- wake-ups --------------------------------------------------------------------------

  /** Step k returns an error with packets in the prepare queue. */
  ghost predicate LeavesAt(acts: seq<Act>, k: nat)
    requires k < |acts|
  {
    var s := After(acts[..k]);
    Ready(s, acts[k]) && acts[k] == Fail && Show(s.pipe, PREP) != []
  }

  lemma LeftStep(s: State, a: Act)
    requires Base(s) && Ready(s, a)
    ensures Do(s, a).left <==> s.left || (a == Fail && Show(s.pipe, PREP) != [])
  {
    hide PoolOk, Owned, Held, Show, PacketCodec.Decode;
  }

  /** The history says truly whether packets were left behind. */
  lemma {:induction false} LeftIff(acts: seq<Act>)
    ensures After(acts).left <==> exists k :: 0 <= k < |acts| && LeavesAt(acts, k)
  {
    hide PoolOk, Owned, Held, Flow, Out, Wake, Ready, Do, Show;
    if acts != [] {
      var n := |acts| - 1;
      var s := After(acts[..n]);
      LeftIff(acts[..n]);
      forall k | 0 <= k < n ensures LeavesAt(acts[..n], k) <==> LeavesAt(acts, k) { assert acts[..n][..k] == acts[..k]; }
      if Ready(s, acts[n]) { LeftStep(s, acts[n]); }
      assert After(acts).left <==> s.left || LeavesAt(acts, n);
    }
  }

  /** No lost wake-up: unless an error return has left packets in the prepare queue, packets
      in the receive queue always have the signal set, an emit pending, or a copy pending. */
  lemma NoLostWakeup(acts: seq<Act>)
    requires forall k :: 0 <= k < |acts| ==> !LeavesAt(acts, k)
    ensures Noticed(After(acts))
  {
    LeftIff(acts);
  }

  /** The call decoded a packet, or the signal is set, or a copy is pending, or there is nothing
      to hand over. */
  predicate Heard(s: State)
    requires Shape(s.pipe) && s.net.Unpacking?
  {
    s.net.total > 0 || s.flag || s.logic == Copying || (Show(s.pipe, RECV) == [] && Show(s.pipe, PREP) == [])
  }

  /** The move to the receive queue goes unnoticed exactly if the call decoded no packet, yet
      something is in the queues, the signal is off, and no copy is pending. */
  lemma MoveNoticed(s: State)
    requires Inv(s) && Ready(s, Move)
    ensures Inv(Do(s, Move))
    ensures Noticed(Do(s, Move)) <==> Heard(s)
  {
    hide PoolOk, Owned, Held, Show, Copied, Live;
    CopyKeeps(s.pipe, PREP, RECV);
    StepMove(s);
  }

  /** Only the two hand-overs touch the receive queue. */
  lemma RecvSame(s: State, a: Act)
    requires Inv(s) && Ready(s, a) && a != Move && a != Copy && Shape(Do(s, a).pipe)
    ensures Show(Do(s, a).pipe, RECV) == Show(s.pipe, RECV)
  {
    hide Flow, Out, Wake, PoolOk, Owned, Held, Show, Live, Added, Copied, ReleasedOne, Cleared;
    match a
    case Add => AddKeeps(s.pipe, PREP, s.net.left[0]);
    case StartSend => CopyKeeps(s.pipe, SENDQ, CACHE);
    case SendAgain => CopyKeeps(s.pipe, SENDQ, CACHE);
    case FreeOne => ReleaseOneKeeps(s.pipe, CACHE);
    case FreeDone => ClearKeeps(s.pipe, CACHE);
    case Produce(m) => AddKeeps(s.pipe, SPREP, m);
    case Flush => CopyKeeps(s.pipe, SPREP, SENDQ);
    case Finish => CopyKeeps(s.pipe, SPREP, SENDQ);
    case ReleaseOne => ReleaseOneKeeps(s.pipe, LOGIC);
    case ReleaseDone => ClearKeeps(s.pipe, LOGIC);
    case _ =>
  }

  /** No other step makes packets in the receive queue go unnoticed. */
  lemma OthersNotice(s: State, a: Act)
    requires Inv(s) && Ready(s, a) && a != Move && Noticed(s)
    ensures Inv(Do(s, a)) && Noticed(Do(s, a))
  {
    hide PoolOk, Owned, Held, Flow, Out, Wake, Show, Added, Copied, Taken, ReleasedOne, Cleared;
    StepKeeps(s, a);
    if a == Copy { TakenKeeps(s.pipe); } else { RecvSame(s, a); }
  }

  lemma StepNoticed(s: State, a: Act)
    requires Inv(s) && Ready(s, a) && Noticed(s)
    ensures Inv(Do(s, a)) && (Noticed(Do(s, a)) <==> (a == Move ==> Heard(s)))
  {
    hide Inv, Noticed, Heard, Do;
    if a == Move { MoveNoticed(s); } else { OthersNotice(s, a); }
  }

  /** Step k of the run, if it is a hand-over to the receive queue, is heard. */
  ghost predicate HeardAt(acts: seq<Act>, k: nat)
    requires k < |acts|
  {
    Ready(After(acts[..k]), acts[k]) && acts[k] == Move ==> Heard(After(acts[..k]))
  }

  lemma AfterStep(acts: seq<Act>, k: nat)
    requires k < |acts|
    ensures var s := After(acts[..k]); After(acts[..k + 1]) == if Ready(s, acts[k]) then Do(s, acts[k]) else s
  {
    hide Do, Ready, Inv, Init;
    assert acts[..k + 1][..k] == acts[..k] && acts[..k + 1][k] == acts[k];
  }

  lemma NoticedNext(acts: seq<Act>, k: nat)
    requires k < |acts| && Noticed(After(acts[..k]))
    ensures Noticed(After(acts[..k + 1])) <==> HeardAt(acts, k)
  {
    hide Do, Ready, Flow, Out, Wake, PoolOk, Owned, Held, Noticed, Heard, After;
    AfterStep(acts, k);
    if Ready(After(acts[..k]), acts[k]) { StepNoticed(After(acts[..k]), acts[k]); }
  }

  lemma {:induction false} NoticedTo(acts: seq<Act>, n: nat)
    requires n <= |acts| && forall k :: 0 <= k < n ==> HeardAt(acts, k)
    ensures Noticed(After(acts[..n]))
  {
    hide Flow, Out, Wake, PoolOk, Owned, Held, Noticed, HeardAt;
    if n == 0 {
      StartsNoticed();
    } else {
      NoticedTo(acts, n - 1);
      NoticedNext(acts, n - 1);
    }
  }

  lemma StartsNoticed()
    ensures Noticed(After([]))
  {
    StartsEmpty();
  }

  /** Over every run: packets in the receive queue are noticed at all times if and only if every
      hand-over is heard. */
  lemma NoticedIffHeard(acts: seq<Act>)
    ensures (forall n :: 0 <= n <= |acts| ==> Noticed(After(acts[..n]))) <==> (forall k :: 0 <= k < |acts| ==> HeardAt(acts, k))
  {
    hide Flow, Out, Wake, PoolOk, Owned, Held, Noticed, HeardAt, After;
    if forall k :: 0 <= k < |acts| ==> HeardAt(acts, k) {
      forall n | 0 <= n <= |acts| ensures Noticed(After(acts[..n])) { NoticedTo(acts, n); }
    }
    if forall n :: 0 <= n <= |acts| ==> Noticed(After(acts[..n])) {
      forall k | 0 <= k < |acts| ensures HeardAt(acts, k) {
        assert Noticed(After(acts[..k])) && Noticed(After(acts[..k + 1]));
        NoticedNext(acts, k);
      }
    }
  }

  /** Packets left by an error return are moved without an emit by the next call that decodes
      none: they stay in the receive queue until some later call emits. */
  lemma WakeupLost(s: State, client: nat, fd: int) returns (r: State, t: State)
    requires Inv(s) && s.net == Waiting && s.logic == Idle && !s.flag && Show(s.pipe, PREP) != []
    ensures r == Do(s, Receive(client, fd, [])) && Inv(r) && Ready(r, Move)
    ensures t == Do(r, Move) && Inv(t) && !Noticed(t) && t.net == Waiting && t.logic == Idle && !t.flag
    ensures Show(t.pipe, RECV) == Show(s.pipe, RECV) + Show(s.pipe, PREP)
  {
    hide PoolOk, Owned, Held, Show, Copied, Live;
    r := Do(s, Receive(client, fd, []));
    StepReceive(s, client, fd, []);
    MoveNoticed(r);
    StepMove(r);
    CopyKeeps(r.pipe, PREP, RECV);
    t := Do(r, Move);
  }

  lemma AfterNext(acts: seq<Act>, a: Act)
    requires Ready(After(acts), a)
    ensures After(acts + [a]) == Do(After(acts), a)
  {
    hide Do, Ready, Inv, Init;
    assert (acts + [a])[..|acts|] == acts;
  }

  /** A good packet followed by one with an empty body: one packet is decoded and the call
      returns -2. */
  lemma BadEnd(p: PacketCodec.Packet, stamp: nat, x: Byte, y: Byte)
    requires |p.body| <= PacketCodec.MAX_BODY - PacketCodec.TAIL && PacketCodec.Proto16(p)
    ensures var d := PacketCodec.Decode(PacketCodec.Encode(p, stamp) + [0, 4, x, y]);
      d.packets == [PacketCodec.Received(p, stamp)] && d.code == -2
  {
    var bad: seq<Byte> := [0, 4, x, y];
    PacketCodec.DecodeFirst(p, stamp, bad);
    assert bad[..2] == [0, 4] && [0, 4][..1] == [0];
    assert PacketCodec.Value([0, 4]) == 4;
    PacketCodec.Pow2();
    assert PacketCodec.SizeField(bad) == 4;
  }

  function Sent(p: PacketCodec.Packet, stamp: nat, client: nat, fd: int): Msg {
    Msg(client, fd, p.proto, PacketCodec.Received(p, stamp).body)
  }

  /** The packet is decoded. */
  lemma LeftFirst(s: State, p: PacketCodec.Packet, stamp: nat, x: Byte, y: Byte, client: nat, fd: int) returns (t: State)
    requires Inv(s) && s.net == Waiting
    requires |p.body| <= PacketCodec.MAX_BODY - PacketCodec.TAIL && PacketCodec.Proto16(p)
    ensures t == Do(s, Receive(client, fd, PacketCodec.Encode(p, stamp) + [0, 4, x, y]))
    ensures Inv(t) && t == s.(net := Unpacking([Sent(p, stamp, client, fd)], 0, true))
  {
    hide PipeOk, PacketCodec.Decode, PacketCodec.Encode, Flow, Out, Wake, Show;
    BadEnd(p, stamp, x, y);
    var bytes := PacketCodec.Encode(p, stamp) + [0, 4, x, y];
    StepReceive(s, client, fd, bytes);
    t := Do(s, Receive(client, fd, bytes));
    assert t.net.left == [Sent(p, stamp, client, fd)];
  }

  /** It is added, and then the call fails. */
  lemma LeftNext(s: State, m: Msg) returns (t: State, u: State)
    requires Inv(s) && s.net == Unpacking([m], 0, true)
    ensures t == Do(s, Add) && Inv(t) && Ready(t, Fail)
    ensures u == Do(t, Fail) && Inv(u) && Show(u.pipe, PREP) == Show(s.pipe, PREP) + [m]
    ensures u.net == Waiting && u.logic == s.logic && u.flag == s.flag && Show(u.pipe, RECV) == Show(s.pipe, RECV)
  {
    hide PipeOk, Added, Flow, Out, Wake, Show;
    StepAdd(s);
    AddKeeps(s.pipe, PREP, m);
    t := Do(s, Add);
    StepLocal(t, Fail);
    u := Do(t, Fail);
  }

  /** A client sends a good packet and one with an empty body; then some call decodes nothing.
      The good packet is in the receive queue and nobody will look there. */
  lemma LeftBehind(p: PacketCodec.Packet, stamp: nat, x: Byte, y: Byte, client: nat, fd: int, other: nat, fd': int)
    requires |p.body| <= PacketCodec.MAX_BODY - PacketCodec.TAIL && PacketCodec.Proto16(p)
    ensures var s := After([] + [Receive(client, fd, PacketCodec.Encode(p, stamp) + [0, 4, x, y])] + [Add] + [Fail]
                           + [Receive(other, fd', [])] + [Move]);
      && s.net == Waiting && s.logic == Idle && !s.flag && !Noticed(s)
      && Show(s.pipe, RECV) == [Sent(p, stamp, client, fd)]
  {
    hide Do, Inv, Show, Noticed, PacketCodec.Encode, Sent;
    var first := Receive(client, fd, PacketCodec.Encode(p, stamp) + [0, 4, x, y]);
    StartsEmpty();
    var r := LeftFirst(After([]), p, stamp, x, y, client, fd);
    var t, u := LeftNext(r, Sent(p, stamp, client, fd));
    AfterNext([], first);
    AfterNext([] + [first], Add);
    AfterNext([] + [first] + [Add], Fail);
    LeftLast([] + [first] + [Add] + [Fail], Sent(p, stamp, client, fd), other, fd');
  }

  lemma StartsEmpty()
    ensures var s := After([]); s.net == Waiting && s.logic == Idle && !s.flag && Inv(s)
    ensures Show(After([]).pipe, RECV) == [] && Show(After([]).pipe, PREP) == []
  {
    InitInv();
    assert After([]) == Init();
  }

  lemma LeftLast(acts: seq<Act>, m: Msg, client: nat, fd: int)
    requires var s := After(acts);
      && s.net == Waiting && s.logic == Idle && !s.flag
      && Show(s.pipe, RECV) == [] && Show(s.pipe, PREP) == [m]
    ensures var s := After(acts + [Receive(client, fd, [])] + [Move]);
      && s.net == Waiting && s.logic == Idle && !s.flag && !Noticed(s)
      && Show(s.pipe, RECV) == [m]
  {
    hide Do, Inv, Show, Noticed;
    var r, t := WakeupLost(After(acts), client, fd);
    AfterNext(acts, Receive(client, fd, []));
    AfterNext(acts + [Receive(client, fd, [])], Move);
  }
}
