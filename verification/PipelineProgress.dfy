/** The network thread and the logic thread get on (Pipeline): what one read, one round of the logic and
    one round of sending achieve, from every state, when the thread is not kept waiting. */
module PipelineProgress {
  import opened PacketPool
  import opened SixQueues
  import opened Pipeline
  import opened Ring
  import PacketCodec

  /** From s the steps lead to t. */
  ghost predicate Leads(s: State, acts: seq<Act>, t: State)
    decreases |acts|
  {
    if acts == [] then s == t else Base(s) && Ready(s, acts[0]) && Leads(Do(s, acts[0]), acts[1..], t)
  }

  lemma Nowhere(s: State)
    ensures Leads(s, [], s)
  { }

  lemma {:induction false} LeadsNext(s: State, acts: seq<Act>, t: State, a: Act)
    requires Leads(s, acts, t) && Base(t) && Ready(t, a)
    ensures Leads(s, acts + [a], Do(t, a))
    decreases |acts|
  {
    hide Ready, Do, Base;
    if acts == [] {
      assert Leads(Do(s, a), [], Do(s, a));
      assert (acts + [a])[1..] == [];
    } else {
      assert (acts + [a])[1..] == acts[1..] + [a];
      LeadsNext(Do(s, acts[0]), acts[1..], t, a);
    }
  }

  lemma More(s: State, acts: seq<Act>, t: State, a: Act) returns (acts': seq<Act>, t': State)
    requires Leads(s, acts, t) && Inv(t) && Ready(t, a)
    ensures acts' == acts + [a] && t' == Do(t, a) && Leads(s, acts', t') && Inv(t')
  {
    hide Leads, Do, Flow, Out, Wake, PipeOk;
    BaseOf(t);
    LeadsNext(s, acts, t, a);
    StepKeeps(t, a);
    acts', t' := acts + [a], Do(t, a);
  }

  lemma BaseOf(s: State)
    requires Inv(s)
    ensures Base(s) && Shape(s.pipe)
  { }

  // ---- the logic thread ---------------------------------------------------------------------------

  /** What the logic thread leaves alone in a round. */
  ghost predicate LogicOnly(s: State, t: State)
    requires Shape(s.pipe) && Shape(t.pipe)
  {
    t.net == s.net && t.arrived == s.arrived && t.produced == s.produced && t.served == s.served && t.gone == s.gone
    && Show(t.pipe, PREP) == Show(s.pipe, PREP) && Show(t.pipe, CACHE) == Show(s.pipe, CACHE)
  }

  lemma CheckTurn(s: State)
    requires Inv(s) && s.logic == Idle
    ensures Ready(s, Check) && Do(s, Check) == if s.flag then s.(flag := false, logic := Copying) else s
  { }

  lemma CopyTurn(s: State)
    requires Inv(s) && s.logic == Copying
    ensures Ready(s, Copy)
    ensures var t := Do(s, Copy);
      && t == s.(pipe := t.pipe, logic := Handling(0), slipped := false) && PipeOk(t.pipe)
      && Show(t.pipe, LOGIC) == Show(s.pipe, RECV) && Show(t.pipe, RECV) == [] && t.pipe.queues[LOGIC].num == |Show(s.pipe, RECV)|
      && (forall j :: 0 <= j < QUEUES && j != RECV && j != LOGIC ==> Show(t.pipe, j) == Show(s.pipe, j))
  {
    hide PoolOk, Owned, Held, Show, Live, Flow, Out, Wake, Taken;
    TakenKeeps(s.pipe);
  }

  lemma HandleTurn(s: State)
    requires Inv(s) && s.logic.Handling? && s.logic.i < |Show(s.pipe, LOGIC)|
    ensures Ready(s, Handle)
    ensures Do(s, Handle) == s.(handled := s.handled + [Show(s.pipe, LOGIC)[s.logic.i]], logic := Handling(s.logic.i + 1))
  {
    hide PoolOk, Owned, Held, Show, Live, Flow, Out, Wake;
    ShowLength(s.pipe, LOGIC);
  }

  lemma FinishTurn(s: State)
    requires Inv(s) && s.logic.Handling? && s.logic.i == |Show(s.pipe, LOGIC)|
    ensures Ready(s, Finish)
    ensures var t := Do(s, Finish);
      && t == s.(pipe := t.pipe, logic := Releasing) && PipeOk(t.pipe)
      && Show(t.pipe, SPREP) == [] && Show(t.pipe, SENDQ) == Show(s.pipe, SENDQ) + Show(s.pipe, SPREP)
      && (forall j :: 0 <= j < QUEUES && j != SPREP && j != SENDQ ==> Show(t.pipe, j) == Show(s.pipe, j))
  {
    hide PoolOk, Owned, Held, Show, Live, Flow, Out, Wake, Copied;
    ShowLength(s.pipe, LOGIC);
    CopyKeeps(s.pipe, SPREP, SENDQ);
  }

  lemma ReleaseTurn(s: State)
    requires Inv(s) && s.logic == Releasing && Show(s.pipe, LOGIC) != []
    ensures Ready(s, ReleaseOne)
    ensures var t := Do(s, ReleaseOne);
      && t == s.(pipe := t.pipe, retired := s.retired + 1) && PipeOk(t.pipe)
      && Show(t.pipe, LOGIC) == Show(s.pipe, LOGIC)[1..]
      && (forall j :: 0 <= j < QUEUES && j != LOGIC ==> Show(t.pipe, j) == Show(s.pipe, j))
  {
    hide PoolOk, Owned, Held, Show, Live, Flow, Out, Wake, ReleasedOne;
    ShowLength(s.pipe, LOGIC);
    ReleaseOneKeeps(s.pipe, LOGIC);
  }

  lemma IdleTurn(s: State)
    requires Inv(s) && s.logic == Releasing && Show(s.pipe, LOGIC) == []
    ensures Ready(s, ReleaseDone)
    ensures var t := Do(s, ReleaseDone);
      && t == s.(pipe := t.pipe, logic := Idle) && PipeOk(t.pipe)
      && (forall j :: 0 <= j < QUEUES ==> Show(t.pipe, j) == Show(s.pipe, j))
  {
    hide PoolOk, Owned, Held, Show, Live, Flow, Out, Wake, Cleared;
    ShowLength(s.pipe, LOGIC);
    ClearKeeps(s.pipe, LOGIC);
  }

  /** With the signal set, one round of the logic thread handles everything in the receive queue, in order,
      hands what the handlers produced before to the sender, and gives all the memories back. */
  lemma LogicRound(s: State) returns (acts: seq<Act>, t: State)
    requires Inv(s) && s.logic == Idle && s.flag
    ensures Leads(s, acts, t) && Inv(t) && t.logic == Idle && !t.flag && LogicOnly(s, t)
    ensures t.handled == s.handled + Show(s.pipe, RECV) && t.retired == |t.handled|
    ensures Show(t.pipe, RECV) == [] && Show(t.pipe, LOGIC) == []
    ensures Show(t.pipe, SPREP) == [] && Show(t.pipe, SENDQ) == Show(s.pipe, SENDQ) + Show(s.pipe, SPREP)
  {
    hide Leads, Do, PoolOk, Owned, Held, Flow, Out, Wake, Show;
    acts, t := [], s;
    Nowhere(s);
    CheckTurn(t);
    acts, t := More(s, acts, t, Check);
    CopyTurn(t);
    acts, t := More(s, acts, t, Copy);
    var recv := Show(s.pipe, RECV);
    for i := 0 to |recv|
      invariant Leads(s, acts, t) && Inv(t) && t.logic == Handling(i) && !t.flag && LogicOnly(s, t)
      invariant t.handled == s.handled + recv[..i]
      invariant Show(t.pipe, RECV) == [] && Show(t.pipe, LOGIC) == recv
      invariant Show(t.pipe, SPREP) == Show(s.pipe, SPREP) && Show(t.pipe, SENDQ) == Show(s.pipe, SENDQ)
    {
      HandleTurn(t);
      acts, t := More(s, acts, t, Handle);
      assert recv[..i] + [recv[i]] == recv[..i + 1];
    }
    assert recv[..|recv|] == recv;
    FinishTurn(t);
    acts, t := More(s, acts, t, Finish);
    while Show(t.pipe, LOGIC) != []
      invariant Leads(s, acts, t) && Inv(t) && t.logic == Releasing && !t.flag && LogicOnly(s, t)
      invariant t.handled == s.handled + recv
      invariant Show(t.pipe, RECV) == []
      invariant Show(t.pipe, SPREP) == [] && Show(t.pipe, SENDQ) == Show(s.pipe, SENDQ) + Show(s.pipe, SPREP)
      decreases |Show(t.pipe, LOGIC)|
    {
      ReleaseTurn(t);
      acts, t := More(s, acts, t, ReleaseOne);
    }
    IdleTurn(t);
    acts, t := More(s, acts, t, ReleaseDone);
    AllRetired(t);
  }

  lemma AllRetired(s: State)
    requires Inv(s) && s.logic == Idle && Show(s.pipe, LOGIC) == []
    ensures s.retired == |s.handled|
  {
    hide PipeOk, Show, Out, Wake;
  }

  // ---- the network thread ----------------------------------------------------------------------------

  /** What the network thread leaves alone. */
  ghost predicate NetOnly(s: State, t: State)
    requires Shape(s.pipe) && Shape(t.pipe)
  {
    t.logic == s.logic && t.handled == s.handled && t.retired == s.retired && t.produced == s.produced
    && Show(t.pipe, LOGIC) == Show(s.pipe, LOGIC) && Show(t.pipe, SPREP) == Show(s.pipe, SPREP)
  }

  ghost predicate SendOnly(s: State, t: State)
    requires Shape(s.pipe) && Shape(t.pipe)
  {
    NetOnly(s, t) && t.flag == s.flag && t.arrived == s.arrived
    && Show(t.pipe, PREP) == Show(s.pipe, PREP) && Show(t.pipe, RECV) == Show(s.pipe, RECV)
  }

  lemma CacheTurn(s: State, a: Act)
    requires Inv(s) && ((a == StartSend && s.net == Waiting) || (a == SendAgain && s.net == Again))
    ensures Ready(s, a)
    ensures var t := Do(s, a);
      && t == s.(pipe := t.pipe, net := t.net) && PipeOk(t.pipe)
      && Show(t.pipe, CACHE) == Show(s.pipe, SENDQ) && Show(t.pipe, SENDQ) == []
      && (forall j :: 0 <= j < QUEUES && j != CACHE && j != SENDQ ==> Show(t.pipe, j) == Show(s.pipe, j))
      && t.net == if a == StartSend || Show(s.pipe, SENDQ) != [] then Sending(0) else Waiting
  {
    hide PoolOk, Owned, Held, Show, Live, Flow, Out, Wake, Copied;
    ShowLength(s.pipe, CACHE);
    CopyKeeps(s.pipe, SENDQ, CACHE);
  }

  lemma SendTurn(s: State)
    requires Inv(s) && s.net.Sending?
    ensures s.net.k < |Show(s.pipe, CACHE)| ==>
      (Ready(s, SendOne)
       && Do(s, SendOne) == s.(served := s.served + [Show(s.pipe, CACHE)[s.net.k]], net := Sending(s.net.k + 1)))
    ensures s.net.k == |Show(s.pipe, CACHE)| ==> Ready(s, SendDone) && Do(s, SendDone) == s.(net := Freeing)
  {
    hide PoolOk, Owned, Held, Show, Live, Flow, Out, Wake;
    ShowLength(s.pipe, CACHE);
  }

  lemma FreeTurn(s: State)
    requires Inv(s) && s.net == Freeing
    ensures Show(s.pipe, CACHE) != [] ==> Ready(s, FreeOne)
    ensures Show(s.pipe, CACHE) != [] ==> var t := Do(s, FreeOne);
      && t == s.(pipe := t.pipe, gone := s.gone + 1) && PipeOk(t.pipe)
      && Show(t.pipe, CACHE) == Show(s.pipe, CACHE)[1..]
      && (forall j :: 0 <= j < QUEUES && j != CACHE ==> Show(t.pipe, j) == Show(s.pipe, j))
    ensures Show(s.pipe, CACHE) == [] ==> Ready(s, FreeDone)
    ensures Show(s.pipe, CACHE) == [] ==> var t := Do(s, FreeDone);
      && t == s.(pipe := t.pipe, net := Again) && PipeOk(t.pipe)
      && (forall j :: 0 <= j < QUEUES ==> Show(t.pipe, j) == Show(s.pipe, j))
  {
    hide PoolOk, Owned, Held, Show, Live, Flow, Out, Wake, ReleasedOne, Cleared;
    ShowLength(s.pipe, CACHE);
    if Show(s.pipe, CACHE) != [] { ReleaseOneKeeps(s.pipe, CACHE); } else { ClearKeeps(s.pipe, CACHE); }
  }

  /** One command to send serves everything in the send queue, in order, and gives the memories back. */
  lemma SendRound(s: State) returns (acts: seq<Act>, t: State)
    requires Inv(s) && s.net == Waiting
    ensures Leads(s, acts, t) && Inv(t) && t.net == Waiting && SendOnly(s, t)
    ensures t.served == s.served + Show(s.pipe, SENDQ) && t.gone == |t.served|
    ensures Show(t.pipe, SENDQ) == [] && Show(t.pipe, CACHE) == []
  {
    hide Leads, Do, PoolOk, Owned, Held, Flow, Out, Wake, Show;
    acts, t := [], s;
    Nowhere(s);
    CacheTurn(t, StartSend);
    acts, t := More(s, acts, t, StartSend);
    var all := Show(s.pipe, SENDQ);
    for i := 0 to |all|
      invariant Leads(s, acts, t) && Inv(t) && t.net == Sending(i) && SendOnly(s, t)
      invariant t.served == s.served + all[..i] && Show(t.pipe, SENDQ) == [] && Show(t.pipe, CACHE) == all
    {
      SendTurn(t);
      acts, t := More(s, acts, t, SendOne);
      assert all[..i] + [all[i]] == all[..i + 1];
    }
    assert all[..|all|] == all;
    SendTurn(t);
    acts, t := More(s, acts, t, SendDone);
    while Show(t.pipe, CACHE) != []
      invariant Leads(s, acts, t) && Inv(t) && t.net == Freeing && SendOnly(s, t)
      invariant t.served == s.served + all && Show(t.pipe, SENDQ) == []
      decreases |Show(t.pipe, CACHE)|
    {
      FreeTurn(t);
      acts, t := More(s, acts, t, FreeOne);
    }
    FreeTurn(t);
    acts, t := More(s, acts, t, FreeDone);
    CacheTurn(t, SendAgain);
    acts, t := More(s, acts, t, SendAgain);
    AllGone(t);
  }

  lemma AllGone(s: State)
    requires Inv(s) && s.net == Waiting && Show(s.pipe, CACHE) == []
    ensures s.gone == |s.served|
  {
    hide PipeOk, Show, Flow, Wake;
  }

  lemma AddTurn(s: State)
    requires Inv(s) && s.net.Unpacking? && s.net.left != []
    ensures Ready(s, Add)
    ensures var t := Do(s, Add);
      && t == s.(pipe := t.pipe, arrived := s.arrived + [s.net.left[0]], net := Unpacking(s.net.left[1..], s.net.total + 1, s.net.bad))
      && PipeOk(t.pipe) && Show(t.pipe, PREP) == Show(s.pipe, PREP) + [s.net.left[0]]
      && (forall j :: 0 <= j < QUEUES && j != PREP ==> Show(t.pipe, j) == Show(s.pipe, j))
  {
    hide PoolOk, Owned, Held, Show, Live, Flow, Out, Wake, Added;
    AddKeeps(s.pipe, PREP, s.net.left[0]);
  }

  lemma MoveTurn(s: State)
    requires Inv(s) && s.net.Unpacking? && s.net.left == [] && !s.net.bad
    ensures Ready(s, Move)
    ensures var t := Do(s, Move);
      && t == s.(pipe := t.pipe, net := t.net, slipped := t.slipped) && t.net == (if s.net.total > 0 then Emitting else Waiting)
      && PipeOk(t.pipe) && Show(t.pipe, RECV) == Show(s.pipe, RECV) + Show(s.pipe, PREP) && Show(t.pipe, PREP) == []
      && (forall j :: 0 <= j < QUEUES && j != PREP && j != RECV ==> Show(t.pipe, j) == Show(s.pipe, j))
  {
    hide PoolOk, Owned, Held, Show, Live, Flow, Out, Wake, Copied;
    CopyKeeps(s.pipe, PREP, RECV);
  }

  lemma ReceiveTurn(s: State, client: nat, fd: int, bytes: seq<Byte>)
    requires Inv(s) && s.net == Waiting
    ensures Ready(s, Receive(client, fd, bytes))
    ensures var d := PacketCodec.Decode(bytes);
      Do(s, Receive(client, fd, bytes)) == s.(net := Unpacking(MsgsOf(client, fd, d.packets), 0, d.code != 0))
  {
    hide PipeOk;
  }

  lemma EmitTurn(s: State)
    requires Inv(s)
    ensures s.net == Emitting ==> Ready(s, Emit) && Do(s, Emit) == s.(flag := true, net := Waiting, slipped := false)
    ensures s.net.Unpacking? && s.net.left == [] && s.net.bad ==> Ready(s, Fail) && Do(s, Fail) == s.(net := Waiting, left := Do(s, Fail).left)
  {
    hide PipeOk, Show;
  }

  /** Unpacking a client's buffer: the packets its bytes decode to arrive, in order. Without an error they
      are handed over behind those received before, with all that was left in the prepare queue, and the
      signal is set if there were any; after an error they stay in the prepare queue. */
  lemma ReceiveRound(s: State, client: nat, fd: int, bytes: seq<Byte>) returns (acts: seq<Act>, t: State)
    requires Inv(s) && s.net == Waiting
    ensures Leads(s, acts, t) && Inv(t) && t.net == Waiting && NetOnly(s, t) && t.served == s.served && t.gone == s.gone
    ensures var d := PacketCodec.Decode(bytes);
      var ms := MsgsOf(client, fd, d.packets);
      && t.arrived == s.arrived + ms
      && (if d.code == 0
          then Show(t.pipe, RECV) == Show(s.pipe, RECV) + Show(s.pipe, PREP) + ms && Show(t.pipe, PREP) == [] && t.flag == (s.flag || ms != [])
          else Show(t.pipe, RECV) == Show(s.pipe, RECV) && Show(t.pipe, PREP) == Show(s.pipe, PREP) + ms && t.flag == s.flag)
  {
    hide Leads, Do, PoolOk, Owned, Held, Flow, Out, Wake, Show, PacketCodec.Decode;
    acts, t := [], s;
    Nowhere(s);
    ReceiveTurn(t, client, fd, bytes);
    acts, t := More(s, acts, t, Receive(client, fd, bytes));
    var ms, bad := t.net.left, t.net.bad;
    for i := 0 to |ms|
      invariant Leads(s, acts, t) && Inv(t) && t.net == Unpacking(ms[i..], i, bad) && t.flag == s.flag
      invariant NetOnly(s, t) && t.served == s.served && t.gone == s.gone
      invariant t.arrived == s.arrived + ms[..i]
      invariant Show(t.pipe, RECV) == Show(s.pipe, RECV) && Show(t.pipe, PREP) == Show(s.pipe, PREP) + ms[..i]
    {
      AddTurn(t);
      acts, t := More(s, acts, t, Add);
      assert ms[..i] + [ms[i]] == ms[..i + 1] && ms[i..][1..] == ms[i + 1..];
    }
    assert ms[..|ms|] == ms;
    EmitTurn(t);
    if bad {
      acts, t := More(s, acts, t, Fail);
    } else {
      MoveTurn(t);
      acts, t := More(s, acts, t, Move);
      EmitTurn(t);
      if |ms| > 0 { acts, t := More(s, acts, t, Emit); }
      assert Show(s.pipe, RECV) + (Show(s.pipe, PREP) + ms) == Show(s.pipe, RECV) + Show(s.pipe, PREP) + ms;
    }
  }

  // ---- end to end --------------------------------------------------------------------------------------

  lemma {:induction false} LeadsJoin(s: State, first: seq<Act>, t: State, then': seq<Act>, u: State)
    requires Leads(s, first, t) && Leads(t, then', u)
    ensures Leads(s, first + then', u)
    decreases |first|
  {
    hide Ready, Do, Base;
    if first == [] {
      assert first + then' == then';
    } else {
      assert (first + then')[1..] == first[1..] + then';
      LeadsJoin(Do(s, first[0]), first[1..], t, then', u);
    }
  }

  /** Nothing is on its way to a handler: all that arrived was handled. */
  lemma AllHandled(s: State)
    requires Inv(s) && s.logic == Idle && Show(s.pipe, LOGIC) == Show(s.pipe, RECV) == Show(s.pipe, PREP) == []
    ensures s.handled == s.arrived
  {
    hide PipeOk, Show, Out, Wake;
  }

  lemma AllServed(s: State)
    requires Inv(s) && s.net == Waiting && Show(s.pipe, CACHE) == Show(s.pipe, SENDQ) == Show(s.pipe, SPREP) == []
    ensures s.served == s.produced
  {
    hide PipeOk, Show, Flow, Wake;
  }

  /** Packets that come in without an error are handled, with all that were waiting before them, by the next
      round of the logic thread; the next command to send then leaves nothing unsent. */
  lemma AllDelivered(s: State, client: nat, fd: int, bytes: seq<Byte>) returns (acts: seq<Act>, t: State)
    requires Inv(s) && s.net == Waiting && s.logic == Idle
    requires PacketCodec.Decode(bytes).code == 0 && PacketCodec.Decode(bytes).packets != []
    ensures Leads(s, acts, t) && Inv(t) && t.net == Waiting && t.logic == Idle
    ensures t.handled == t.arrived == s.arrived + MsgsOf(client, fd, PacketCodec.Decode(bytes).packets)
    ensures t.served == t.produced == s.produced
    ensures t.retired == |t.handled| && t.gone == |t.served|
  {
    hide Leads, Do, PoolOk, Owned, Held, Flow, Out, Wake, Show, PacketCodec.Decode, Ready;
    var a1, u := ReceiveRound(s, client, fd, bytes);
    var a2, v := LogicRound(u);
    var a3, w := SendRound(v);
    LeadsJoin(s, a1, u, a2, v);
    LeadsJoin(s, a1 + a2, v, a3, w);
    acts, t := a1 + a2 + a3, w;
    AllHandled(t);
    AllServed(t);
    AllRetired(t);
  }

  lemma FlushTurn(s: State)
    requires Inv(s) && s.logic.Handling?
    ensures Ready(s, Flush)
    ensures var t := Do(s, Flush);
      && t == s.(pipe := t.pipe) && PipeOk(t.pipe)
      && Show(t.pipe, SENDQ) == Show(s.pipe, SENDQ) + Show(s.pipe, SPREP) && Show(t.pipe, SPREP) == []
      && (forall j :: 0 <= j < QUEUES && j != SPREP && j != SENDQ ==> Show(t.pipe, j) == Show(s.pipe, j))
  {
    hide PoolOk, Owned, Held, Show, Live, Flow, Out, Wake, Copied;
    CopyKeeps(s.pipe, SPREP, SENDQ);
  }

  /** A handler that flushes has all its packets sent by the next command to send, before it returns. */
  lemma FlushServes(s: State) returns (acts: seq<Act>, t: State)
    requires Inv(s) && s.logic.Handling? && s.net == Waiting
    ensures Leads(s, [Flush] + acts, t) && Inv(t) && t.logic == s.logic && t.net == Waiting
    ensures t.served == t.produced == s.produced && t.arrived == s.arrived && t.handled == s.handled
  {
    hide Leads, Do, PoolOk, Owned, Held, Flow, Out, Wake, Show;
    Nowhere(s);
    FlushTurn(s);
    var first, u := More(s, [], s, Flush);
    assert first == [Flush];
    acts, t := SendRound(u);
    LeadsJoin(s, first, u, acts, t);
    AllServed(t);
  }
}
