/**
  * The network thread and the logic thread of a server, step by step (network/context.h,
  * service/gamesvr/gamelogic.cpp, common/signal.cpp). Each step is what one thread does
  * under one lock, or alone on its own queues; the steps of the two interleave freely.
  */
module Pipeline {
  import opened Ring
  import opened PacketPool
  import opened PacketQueues
  import opened SixQueues
  import PacketCodec

  const PREP: nat := 0
  const RECV: nat := 1
  const LOGIC: nat := 2
  const SPREP: nat := 3
  const SENDQ: nat := 4
  const CACHE: nat := 5

  /** The network thread: idle, inside UnpackPacketToRecvQueue with packets left to add
      (`bad`: it will return an error), about to emit, or inside ExecuteCmdSendAllPacket. */
  datatype Net = Waiting | Unpacking(left: seq<Msg>, total: nat, bad: bool) | Emitting | Sending(k: nat) | Freeing | Again

  /** The logic thread: idle, past the check of the signal, handling packet `i`, or in
      ReleaseAllPackets. */
  datatype Logic = Idle | Copying | Handling(i: nat) | Releasing

  /** The rest is history: packets decoded, handled, produced, and passed to the sender;
      how many of the received and of the sent ones are released; whether an error return
      left packets in the prepare queue; whether packets were moved without an emit since. */
  datatype State = State(pipe: Pipe, flag: bool, net: Net, logic: Logic,
                         arrived: seq<Msg>, handled: seq<Msg>, retired: nat,
                         produced: seq<Msg>, served: seq<Msg>, gone: nat, left: bool, slipped: bool)

  datatype Act =
    | Receive(client: nat, fd: int, bytes: seq<Byte>) | Add | Fail | Move | Emit
    | StartSend | SendOne | SendDone | FreeOne | FreeDone | SendAgain
    | Check | Copy | Handle | Produce(m: Msg) | Flush | Finish | ReleaseOne | ReleaseDone

  predicate Small(ms: seq<Msg>) { forall k :: 0 <= k < |ms| ==> |ms[k].body| <= MAX_SIZE }

  /** The packets of a client as they are put into the prepare queue. */
  function MsgsOf(client: nat, fd: int, ps: seq<PacketCodec.Packet>): (ms: seq<Msg>)
    ensures |ms| == |ps| && forall k :: 0 <= k < |ps| ==> ms[k] == Msg(client, fd, ps[k].proto, ps[k].body)
  {
    seq(|ps|, k requires 0 <= k < |ps| => Msg(client, fd, ps[k].proto, ps[k].body))
  }

  /** UnpackPacketToRecvQueue on a client's buffer: the packets it will add, and whether it
      will return an error. */
  function Unpack(client: nat, fd: int, bytes: seq<Byte>): Net {
    var d := PacketCodec.Decode(bytes);
    Unpacking(MsgsOf(client, fd, d.packets), 0, d.code != 0)
  }

  lemma {:induction false} DecodedSmall(bytes: seq<Byte>)
    ensures forall k :: 0 <= k < |PacketCodec.Decode(bytes).packets| ==> |PacketCodec.Decode(bytes).packets[k].body| <= MAX_SIZE
    decreases |bytes|
  {
    hide PacketCodec.SizeField, PacketCodec.ProtoField, PacketCodec.Decode;
    if PacketCodec.Stops(bytes) || !(0 < PacketCodec.SizeField(bytes) - PacketCodec.HEADER <= PacketCodec.MAX_BODY) {
      PacketCodec.DecodeStops(bytes);
    } else {
      PacketCodec.DecodeStep(bytes);
      DecodedSmall(bytes[PacketCodec.SizeField(bytes)..]);
    }
  }

  // ---- what holds between steps ------------------------------------------------------------

  /** Only the two threads' release loops are ever half way through a queue, and the private
      queues are empty outside their use. */
  predicate Base(s: State) {
    && PipeOk(s.pipe)
    && s.pipe.freed[PREP] == s.pipe.freed[RECV] == s.pipe.freed[SPREP] == s.pipe.freed[SENDQ] == 0
    && (s.logic != Releasing ==> s.pipe.freed[LOGIC] == 0)
    && (s.net != Freeing ==> s.pipe.freed[CACHE] == 0)
    && (s.logic == Idle || s.logic == Copying ==> s.pipe.queues[LOGIC].vec == [])
    && (!s.net.Sending? && !s.net.Freeing? ==> s.pipe.queues[CACHE].vec == [])
    && (s.logic.Handling? ==> s.logic.i <= |s.pipe.queues[LOGIC].vec| == s.pipe.queues[LOGIC].num)
    && (s.net.Sending? ==> s.net.k <= |s.pipe.queues[CACHE].vec|)
    && (s.net.Unpacking? ==> Small(s.net.left))
  }

  /** Received packets: released, then in the logic queue, the receive queue, the prepare
      queue, in the order they were decoded; they are handled in that order, once each, and
      released only after that. */
  predicate Flow(s: State)
    requires Shape(s.pipe)
  {
    && s.retired <= |s.handled| <= |s.arrived|
    && s.arrived[s.retired..] == Show(s.pipe, LOGIC) + Show(s.pipe, RECV) + Show(s.pipe, PREP)
    && s.handled == s.arrived[..|s.handled|]
    && |s.handled| == s.retired + (if s.logic.Handling? then s.logic.i else |Show(s.pipe, LOGIC)|)
  }

  /** Produced packets go the same way through the three sending queues. */
  predicate Out(s: State)
    requires Shape(s.pipe)
  {
    && s.gone <= |s.served| <= |s.produced|
    && s.produced[s.gone..] == Show(s.pipe, CACHE) + Show(s.pipe, SENDQ) + Show(s.pipe, SPREP)
    && s.served == s.produced[..|s.served|]
    && |s.served| == s.gone + (if s.net.Sending? then s.net.k else |Show(s.pipe, CACHE)|)
  }

  /** Packets in the receive queue will be noticed. */
  predicate Noticed(s: State)
    requires Shape(s.pipe)
  {
    Show(s.pipe, RECV) == [] || s.flag || s.net == Emitting || s.logic == Copying
  }

  predicate Wake(s: State)
    requires Shape(s.pipe)
  {
    && (Noticed(s) || s.slipped)
    && (!s.left ==> !s.slipped && |Show(s.pipe, PREP)| == if s.net.Unpacking? then s.net.total else 0)
  }

  predicate Inv(s: State) { Base(s) && Flow(s) && Out(s) && Wake(s) }

  // ---- steps ------------------------------------------------------------------------------

  predicate Ready(s: State, a: Act)
    requires Shape(s.pipe)
  {
    match a
    case Receive(_, _, _) => s.net == Waiting
    case Add => s.net.Unpacking? && s.net.left != []
    case Fail => s.net.Unpacking? && s.net.left == [] && s.net.bad
    case Move => s.net.Unpacking? && s.net.left == [] && !s.net.bad
    case Emit => s.net == Emitting
    case StartSend => s.net == Waiting
    case SendOne => s.net.Sending? && s.net.k < |s.pipe.queues[CACHE].vec|
    case SendDone => s.net.Sending? && s.net.k == |s.pipe.queues[CACHE].vec|
    case FreeOne => s.net == Freeing && s.pipe.freed[CACHE] < |s.pipe.queues[CACHE].vec|
    case FreeDone => s.net == Freeing && s.pipe.freed[CACHE] == |s.pipe.queues[CACHE].vec|
    case SendAgain => s.net == Again
    case Check => s.logic == Idle
    case Copy => s.logic == Copying
    case Handle => s.logic.Handling? && s.logic.i < s.pipe.queues[LOGIC].num
    case Produce(m) => s.logic.Handling? && |m.body| <= MAX_SIZE
    case Flush => s.logic.Handling?
    case Finish => s.logic.Handling? && s.logic.i == s.pipe.queues[LOGIC].num
    case ReleaseOne => s.logic == Releasing && s.pipe.freed[LOGIC] < |s.pipe.queues[LOGIC].vec|
    case ReleaseDone => s.logic == Releasing && s.pipe.freed[LOGIC] == |s.pipe.queues[LOGIC].vec|
  }

  /** The logic queue is initialised before the receive queue is copied to it. */
  function Taken(p: Pipe): Pipe
    requires Shape(p)
  {
    Copied(p.(queues := p.queues[LOGIC := Queue(0, [])]), RECV, LOGIC)
  }

  function Do(s: State, a: Act): State
    requires Base(s) && Ready(s, a)
  {
    match a
    case Receive(client, fd, bytes) => s.(net := Unpack(client, fd, bytes))
    case Add => s.(pipe := Added(s.pipe, PREP, s.net.left[0]), arrived := s.arrived + [s.net.left[0]],
                   net := Unpacking(s.net.left[1..], s.net.total + 1, s.net.bad))
    case Fail => s.(net := Waiting, left := s.left || Show(s.pipe, PREP) != [])
    case Move => s.(pipe := Copied(s.pipe, PREP, RECV), net := if s.net.total > 0 then Emitting else Waiting,
                    slipped := s.slipped || (s.net.total == 0 && Show(s.pipe, PREP) != []))
    case Emit => s.(flag := true, net := Waiting, slipped := false)
    case StartSend => s.(pipe := Copied(s.pipe, SENDQ, CACHE), net := Sending(0))
    case SendOne => s.(served := s.served + [Show(s.pipe, CACHE)[s.net.k]], net := Sending(s.net.k + 1))
    case SendDone => s.(net := Freeing)
    case FreeOne =>
      ReleaseOneKeeps(s.pipe, CACHE);
      s.(pipe := ReleasedOne(s.pipe, CACHE), gone := s.gone + 1)
    case FreeDone => s.(pipe := Cleared(s.pipe, CACHE), net := Again)
    case SendAgain => s.(pipe := Copied(s.pipe, SENDQ, CACHE),
                         net := if Copied(s.pipe, SENDQ, CACHE).queues[CACHE].num > 0 then Sending(0) else Waiting)
    case Check => if s.flag then s.(flag := false, logic := Copying) else s
    case Copy => s.(pipe := Taken(s.pipe), logic := Handling(0), slipped := false)
    case Handle => s.(handled := s.handled + [Show(s.pipe, LOGIC)[s.logic.i]], logic := Handling(s.logic.i + 1))
    case Produce(m) => s.(pipe := Added(s.pipe, SPREP, m), produced := s.produced + [m])
    case Flush => s.(pipe := Copied(s.pipe, SPREP, SENDQ))
    case Finish => s.(pipe := Copied(s.pipe, SPREP, SENDQ), logic := Releasing)
    case ReleaseOne =>
      ReleaseOneKeeps(s.pipe, LOGIC);
      s.(pipe := ReleasedOne(s.pipe, LOGIC), retired := s.retired + 1)
    case ReleaseDone => s.(pipe := Cleared(s.pipe, LOGIC), logic := Idle)
  }

  /** The handler's index stays inside the vector: its packet count is exact. */
  lemma HandlerInBounds(s: State)
    requires Inv(s) && s.logic.Handling? && s.logic.i < s.pipe.queues[LOGIC].num
    ensures s.logic.i < |s.pipe.queues[LOGIC].vec|
  { }

  lemma StepAdd(s: State)
    requires Inv(s) && Ready(s, Add)
    ensures Inv(Do(s, Add))
  {
    hide PoolOk, Owned, Held, Put, Stored, Got, Views;
    var m, t := s.net.left[0], Do(s, Add);
    AddKeeps(s.pipe, PREP, m);
    assert t.arrived[s.retired..] == s.arrived[s.retired..] + [m];
    assert t.handled == t.arrived[..|t.handled|];
    assert Show(t.pipe, LOGIC) == Show(s.pipe, LOGIC) && Show(t.pipe, RECV) == Show(s.pipe, RECV);
    assert Show(t.pipe, CACHE) == Show(s.pipe, CACHE) && Show(t.pipe, SENDQ) == Show(s.pipe, SENDQ)
        && Show(t.pipe, SPREP) == Show(s.pipe, SPREP);
    assert Flow(t) && Out(t) && Wake(t);
  }

  lemma MoveBase(s: State)
    requires Base(s) && Ready(s, Move)
    ensures Base(Do(s, Move))
  {
    hide PoolOk, Owned, Held, Views;
    CopyKeeps(s.pipe, PREP, RECV);
  }

  lemma StepMove(s: State)
    requires Inv(s) && Ready(s, Move)
    ensures Inv(Do(s, Move))
  {
    hide PoolOk, Owned, Held, Show, Live, Copied;
    var t := Do(s, Move);
    MoveBase(s);
    CopyKeeps(s.pipe, PREP, RECV);
    assert Show(t.pipe, LOGIC) + Show(t.pipe, RECV) + Show(t.pipe, PREP)
        == Show(s.pipe, LOGIC) + Show(s.pipe, RECV) + Show(s.pipe, PREP);
    assert Show(t.pipe, CACHE) == Show(s.pipe, CACHE) && Show(t.pipe, SENDQ) == Show(s.pipe, SENDQ)
        && Show(t.pipe, SPREP) == Show(s.pipe, SPREP);
    assert Flow(t) && Out(t) && Wake(t);
  }

  lemma ShowLength(p: Pipe, k: nat)
    requires Shape(p) && k < QUEUES
    ensures |Show(p, k)| == |p.queues[k].vec| - p.freed[k]
  { }

  lemma CacheBase(s: State, a: Act)
    requires Base(s) && Ready(s, a) && (a == StartSend || a == SendAgain)
    ensures Base(Do(s, a))
  {
    hide PoolOk, Owned, Held, Views;
    CopyKeeps(s.pipe, SENDQ, CACHE);
  }

  /** PacketSendPrepareCache, at the start of sending and after each round. */
  lemma StepCache(s: State, a: Act)
    requires Inv(s) && Ready(s, a) && (a == StartSend || a == SendAgain)
    ensures Inv(Do(s, a))
  {
    hide PoolOk, Owned, Held, Show, Live, Copied;
    var t := Do(s, a);
    CacheBase(s, a);
    CopyKeeps(s.pipe, SENDQ, CACHE);
    ShowLength(s.pipe, CACHE);
    assert Show(s.pipe, CACHE) == [];
    assert Show(t.pipe, CACHE) + Show(t.pipe, SENDQ) + Show(t.pipe, SPREP)
        == Show(s.pipe, CACHE) + Show(s.pipe, SENDQ) + Show(s.pipe, SPREP);
    assert Show(t.pipe, LOGIC) == Show(s.pipe, LOGIC) && Show(t.pipe, RECV) == Show(s.pipe, RECV)
        && Show(t.pipe, PREP) == Show(s.pipe, PREP);
    assert Flow(t) && Out(t) && Wake(t);
  }

  lemma NextInLine(all: seq<Msg>, from: nat, k: nat, first: seq<Msg>, rest: seq<Msg>)
    requires from <= |all| && k < |first| && all[from..] == first + rest
    ensures from + k < |all| && all[from + k] == first[k]
  { }

  lemma StepSendOne(s: State)
    requires Inv(s) && Ready(s, SendOne)
    ensures Inv(Do(s, SendOne))
  {
    hide PoolOk, Owned, Held, Show, Live;
    var t := Do(s, SendOne);
    var k := s.net.k;
    ShowLength(s.pipe, CACHE);
    NextInLine(s.produced, s.gone, k, Show(s.pipe, CACHE), Show(s.pipe, SENDQ) + Show(s.pipe, SPREP));
    assert t.served == t.produced[..|t.served|];
    assert Flow(t) && Out(t) && Wake(t);
  }

  lemma StepFree(s: State)
    requires Inv(s) && Ready(s, FreeOne)
    ensures Inv(Do(s, FreeOne))
  {
    hide PoolOk, Owned, Held, Views, Released;
    var t := Do(s, FreeOne);
    ReleaseOneKeeps(s.pipe, CACHE);
    assert Show(t.pipe, LOGIC) == Show(s.pipe, LOGIC) && Show(t.pipe, RECV) == Show(s.pipe, RECV)
        && Show(t.pipe, PREP) == Show(s.pipe, PREP);
    assert Show(t.pipe, SENDQ) == Show(s.pipe, SENDQ) && Show(t.pipe, SPREP) == Show(s.pipe, SPREP);
    assert t.produced[t.gone..] == s.produced[s.gone..][1..];
    assert Flow(t) && Out(t) && Wake(t);
  }

  lemma StepClear(s: State, a: Act)
    requires Inv(s) && Ready(s, a) && (a == FreeDone || a == ReleaseDone)
    ensures Inv(Do(s, a))
  {
    hide PoolOk, Owned, Held, Views;
    var t := Do(s, a);
    ClearKeeps(s.pipe, if a == FreeDone then CACHE else LOGIC);
    assert Show(t.pipe, LOGIC) == Show(s.pipe, LOGIC) && Show(t.pipe, RECV) == Show(s.pipe, RECV)
        && Show(t.pipe, PREP) == Show(s.pipe, PREP);
    assert Show(t.pipe, CACHE) == Show(s.pipe, CACHE) && Show(t.pipe, SENDQ) == Show(s.pipe, SENDQ)
        && Show(t.pipe, SPREP) == Show(s.pipe, SPREP);
    assert Flow(t) && Out(t) && Wake(t);
  }

  lemma StepReceive(s: State, client: nat, fd: int, bytes: seq<Byte>)
    requires Inv(s) && Ready(s, Receive(client, fd, bytes))
    ensures Inv(Do(s, Receive(client, fd, bytes)))
  {
    hide PipeOk, PacketCodec.Decode;
    DecodedSmall(bytes);
  }

  /** Steps that leave the queues alone. */
  lemma StepLocal(s: State, a: Act)
    requires Inv(s) && Ready(s, a)
    requires a == Fail || a == Emit || a == SendDone || a == Check
    ensures Inv(Do(s, a))
  {
    hide PoolOk, Owned, Held, Show, Live, Added, Copied, Taken, Cleared, ReleasedOne, Unpack;
    match a
    case Fail =>
    case Emit =>
    case SendDone => ShowLength(s.pipe, CACHE);
    case Check =>
  }

  /** The logic queue is empty when it is initialised, so no packet is lost by that. */
  lemma TakenKeeps(p: Pipe)
    requires PipeOk(p) && p.queues[LOGIC].vec == [] && p.freed[LOGIC] == 0 == p.freed[RECV]
    ensures PipeOk(Taken(p)) && Show(Taken(p), LOGIC) == Show(p, RECV) && Show(Taken(p), RECV) == []
    ensures forall j :: 0 <= j < QUEUES && j != RECV && j != LOGIC ==> Show(Taken(p), j) == Show(p, j)
    ensures Taken(p).queues[LOGIC].num == |Show(p, RECV)|
  {
    hide PoolOk, Owned, Views;
    var q := p.(queues := p.queues[LOGIC := Queue(0, [])]);
    assert forall j :: 0 <= j < QUEUES ==> Live(q, j) == Live(p, j);
    assert Parts(q) == Parts(p);
    assert PipeOk(q);
    assert forall j :: 0 <= j < QUEUES ==> Show(q, j) == Show(p, j);
    assert Show(q, LOGIC) == [];
    hide Held;
    CopyKeeps(q, RECV, LOGIC);
  }

  lemma StepCopy(s: State)
    requires Inv(s) && Ready(s, Copy)
    ensures Inv(Do(s, Copy))
  {
    hide PoolOk, Owned, Held, Views;
    var t := Do(s, Copy);
    TakenKeeps(s.pipe);
    assert Show(s.pipe, LOGIC) == [];
    assert Show(t.pipe, LOGIC) + Show(t.pipe, RECV) + Show(t.pipe, PREP)
        == Show(s.pipe, LOGIC) + Show(s.pipe, RECV) + Show(s.pipe, PREP);
    assert Show(t.pipe, CACHE) == Show(s.pipe, CACHE) && Show(t.pipe, SENDQ) == Show(s.pipe, SENDQ)
        && Show(t.pipe, SPREP) == Show(s.pipe, SPREP);
    assert Flow(t) && Out(t) && Wake(t);
  }

  lemma StepHandle(s: State)
    requires Inv(s) && Ready(s, Handle)
    ensures Inv(Do(s, Handle))
  {
    hide PoolOk, Owned, Held, Show, Live;
    var t := Do(s, Handle);
    var i := s.logic.i;
    ShowLength(s.pipe, LOGIC);
    NextInLine(s.arrived, s.retired, i, Show(s.pipe, LOGIC), Show(s.pipe, RECV) + Show(s.pipe, PREP));
    assert t.handled == t.arrived[..|t.handled|];
    assert Flow(t) && Out(t) && Wake(t);
  }

  lemma StepProduce(s: State, m: Msg)
    requires Inv(s) && Ready(s, Produce(m))
    ensures Inv(Do(s, Produce(m)))
  {
    hide PoolOk, Owned, Held, Put, Stored, Got, Views;
    var t := Do(s, Produce(m));
    AddKeeps(s.pipe, SPREP, m);
    assert t.produced[s.gone..] == s.produced[s.gone..] + [m];
    assert t.served == t.produced[..|t.served|];
    assert Show(t.pipe, LOGIC) == Show(s.pipe, LOGIC) && Show(t.pipe, RECV) == Show(s.pipe, RECV)
        && Show(t.pipe, PREP) == Show(s.pipe, PREP);
    assert Show(t.pipe, CACHE) == Show(s.pipe, CACHE) && Show(t.pipe, SENDQ) == Show(s.pipe, SENDQ);
    assert Flow(t) && Out(t) && Wake(t);
  }

  lemma FlushBase(s: State, a: Act)
    requires Base(s) && Ready(s, a) && (a == Flush || a == Finish)
    ensures Base(Do(s, a))
  {
    hide PoolOk, Owned, Held, Views;
    CopyKeeps(s.pipe, SPREP, SENDQ);
  }

  /** PacketSendPrepare, during handling and at its end. */
  lemma StepFlush(s: State, a: Act)
    requires Inv(s) && Ready(s, a) && (a == Flush || a == Finish)
    ensures Inv(Do(s, a))
  {
    hide PoolOk, Owned, Held, Show, Live, Copied;
    var t := Do(s, a);
    FlushBase(s, a);
    CopyKeeps(s.pipe, SPREP, SENDQ);
    ShowLength(s.pipe, LOGIC);
    assert Show(t.pipe, CACHE) + Show(t.pipe, SENDQ) + Show(t.pipe, SPREP)
        == Show(s.pipe, CACHE) + Show(s.pipe, SENDQ) + Show(s.pipe, SPREP);
    assert Show(t.pipe, LOGIC) == Show(s.pipe, LOGIC) && Show(t.pipe, RECV) == Show(s.pipe, RECV)
        && Show(t.pipe, PREP) == Show(s.pipe, PREP);
    assert Flow(t) && Out(t) && Wake(t);
  }

  lemma StepRelease(s: State)
    requires Inv(s) && Ready(s, ReleaseOne)
    ensures Inv(Do(s, ReleaseOne))
  {
    hide PoolOk, Owned, Held, Views, Released;
    var t := Do(s, ReleaseOne);
    ReleaseOneKeeps(s.pipe, LOGIC);
    assert Show(t.pipe, RECV) == Show(s.pipe, RECV) && Show(t.pipe, PREP) == Show(s.pipe, PREP);
    assert Show(t.pipe, CACHE) == Show(s.pipe, CACHE) && Show(t.pipe, SENDQ) == Show(s.pipe, SENDQ)
        && Show(t.pipe, SPREP) == Show(s.pipe, SPREP);
    assert t.arrived[t.retired..] == s.arrived[s.retired..][1..];
    assert Flow(t) && Out(t) && Wake(t);
  }

  /** Every step of either thread keeps the invariant. */
  lemma StepKeeps(s: State, a: Act)
    requires Inv(s) && Ready(s, a)
    ensures Inv(Do(s, a))
  {
    hide Inv, Base, Flow, Out, Wake, Do;
    match a
    case Add => StepAdd(s);
    case Move => StepMove(s);
    case StartSend => StepCache(s, a);
    case SendAgain => StepCache(s, a);
    case SendOne => StepSendOne(s);
    case FreeOne => StepFree(s);
    case FreeDone => StepClear(s, a);
    case ReleaseDone => StepClear(s, a);
    case Copy => StepCopy(s);
    case Handle => StepHandle(s);
    case Produce(m) => StepProduce(s, m);
    case Flush => StepFlush(s, a);
    case Finish => StepFlush(s, a);
    case ReleaseOne => StepRelease(s);
    case Receive(client, fd, bytes) => StepReceive(s, client, fd, bytes);
    case Fail => StepLocal(s, a);
    case Emit => StepLocal(s, a);
    case SendDone => StepLocal(s, a);
    case Check => StepLocal(s, a);
  }
}
