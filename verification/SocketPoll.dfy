/** The steps of the poll thread (SocketSlots), and the theorem about single steps: a step is
    sound exactly if it falls into no open window. */
module SocketPoll {
  import opened SocketSlots
  import opened SocketThreads

  // ---- steps of the poll thread -----------------------------------------------------------

  lemma PopOrdered(s: State, t: State)
    requires Ordered(s) && s.pipe != [] && t.pipe == s.pipe[1..]
    requires t.issued == s.issued && t.unsent == s.unsent && t.listeners == s.listeners
    ensures Ordered(t)
  {
    hide IdOf, Created;
    assert forall k :: 0 <= k < |s.pipe| - 1 ==> s.pipe[1..][k..] == s.pipe[k + 1..] && s.pipe[1..][k] == s.pipe[k + 1];
  }

  /** The occupant of slot i takes on another kind; a creation of it is carried out with that. */
  predicate Settles(s: State, t: State, i: nat, x: Slot)
    requires |s.slots| == SLOTS
  {
    && i < SLOTS && i !in s.marked && s.slots[i].kind != Invalid
    && x == As(s.slots[i], x.kind, x.pending) && x.kind != Reserve
    && (Quiet(x.kind) ==> x.pending == 0) && (Listening(x.kind) ==> x.born in s.listeners)
    && t == s.(slots := s.slots[i := x], pipe := t.pipe, ev := t.ev, index := t.index, pc := t.pc)
    && Created(t.pipe) == Created(s.pipe) - {x.born}
  }

  lemma SettleSlots(s: State, t: State, i: nat, x: Slot)
    requires Core(s) && Settles(s, t, i, x)
    ensures SlotsOk(t) && Numbers(t) && AllNewest(t)
  {
    hide Home, IdOf, Created, Promised, NoLeak, Ordered, MarkedOk;
    assert forall j :: 0 <= j < SLOTS ==> SlotOk(s.slots[j], j, s);
    assert forall m :: Newest(t, m) == Newest(s, m);
    assert forall j :: 0 <= j < SLOTS ==> t.slots[j].born == s.slots[j].born;
  }

  lemma SettlePromised(s: State, t: State, i: nat, x: Slot)
    requires Core(s) && Settles(s, t, i, x) && x.born !in s.unsent
    requires forall j, k :: 0 <= j < k < |t.pipe| && Creates(t.pipe[j]) && Creates(t.pipe[k]) ==> t.pipe[j].who != t.pipe[k].who
    ensures MarkedOk(t) && Promised(t) && NoLeak(t)
  {
    hide Home, IdOf, Created, Ordered, AllNewest;
    assert SlotOk(s.slots[i], i, s);
    assert Owed(t) == Owed(s) - {x.born};
    forall w | w in Owed(t) ensures Held(t, w) { assert Held(s, w); }
  }

  lemma PopDistinct(s: State)
    requires |s.slots| == SLOTS && Promised(s) && s.pipe != []
    ensures var p := s.pipe[1..];
      forall j, k :: 0 <= j < k < |p| && Creates(p[j]) && Creates(p[k]) ==> p[j].who != p[k].who
  {
    var p := s.pipe[1..];
    assert forall k :: 0 <= k < |p| ==> p[k] == s.pipe[k + 1];
  }

  /** What the first request of the pipe finds: a creation its reserved slot, any other request
      the socket it was issued for, unless that is gone and its slot being reserved anew. */
  lemma Turn(s: State)
    requires Core(s) && s.pipe != [] && s.allocs < s.pipe[0].who + IDS
    ensures var r := s.pipe[0]; var i := Home(r.who); var x := s.slots[i];
      && HashId(r.id) == i && r.who !in s.unsent && r.who > 0
      && (Creates(r) ==> x.kind == Reserve && x.born == r.who && i !in s.marked && r.who in Created(s.pipe))
      && (!Creates(r) ==> r.who !in Created(s.pipe))
      && (Hits(s, r.id) ==> x.born == r.who)
      && (!Creates(r) && Hits(s, r.id) ==> (x.kind == Reserve <==> i in s.marked))
  {
    hide HashId, Home, IdOf, Created;
    var r := s.pipe[0];
    CreatedHas(s.pipe);
    HitsExact(s, r.who);
    assert s.pipe[0..] == s.pipe;
    assert Creates(r) ==> Held(s, r.who);
  }

  lemma CtrlCreates(s: State, env: Env)
    requires Core(s) && Ready(s, Ctrl(env)) && Fresh(s, Ctrl(env)) && Creates(s.pipe[0])
    ensures Core(CtrlState(s, env))
  {
    hide Home, IdOf, Created, SlotsOk, MarkedOk, NoLeak, AllNewest, HashId, Numbers;
    Turn(s);
    var r, t := s.pipe[0], CtrlState(s, env);
    CreatedTail(s.pipe);
    PopOrdered(s, t);
    PopDistinct(s);
    var x := Handled(r.cmd, s.slots[Home(r.who)], env);
    SettleSlots(s, t, Home(r.who), x);
    SettlePromised(s, t, Home(r.who), x);
  }

  lemma PopCore(s: State, t: State)
    requires Core(s) && s.pipe != [] && !Creates(s.pipe[0]) && t == s.(pipe := s.pipe[1..], pc := t.pc)
    ensures Core(t)
  {
    hide Home, IdOf, Created, Ordered, AllNewest;
    CreatedTail(s.pipe);
    PopOrdered(s, t);
    PopDistinct(s);
    SlotsSame(s, t);
    SameNewest(s, t);
    assert Owed(t) == Owed(s);
    forall w | w in Owed(t) ensures Held(t, w) { assert Held(s, w); }
  }

  /** A request that reaches a slot, in its turn. */
  lemma CtrlReaches(s: State, env: Env)
    requires Core(s) && Ready(s, Ctrl(env)) && Fresh(s, Ctrl(env))
    requires !Creates(s.pipe[0]) && Hits(s, s.pipe[0].id) && s.slots[HashId(s.pipe[0].id)].kind != Reserve
    ensures Core(CtrlState(s, env)) && Asserts(s, Ctrl(env))
  {
    hide Home, IdOf, Created, MarkedOk, NoLeak, AllNewest, HashId, Numbers;
    Turn(s);
    var r, t := s.pipe[0], CtrlState(s, env);
    var i := Home(r.who);
    CreatedTail(s.pipe);
    PopOrdered(s, t);
    PopDistinct(s);
    assert SlotOk(s.slots[i], i, s);
    var x := Handled(r.cmd, s.slots[i], env);
    SettleSlots(s, t, i, x);
    SettlePromised(s, t, i, x);
  }

  /** A command keeps the table, exactly if it does not reach a slot that is being reserved. */
  lemma CtrlCore(s: State, env: Env)
    requires Core(s) && Ready(s, Ctrl(env)) && Fresh(s, Ctrl(env))
    ensures Clean(s, Ctrl(env)) <==> Core(CtrlState(s, env)) && Asserts(s, Ctrl(env))
  {
    hide Home, IdOf, Created, MarkedOk, NoLeak, AllNewest, HashId, Numbers, Ordered, SlotsOk, Promised;
    var r := s.pipe[0];
    if Creates(r) {
      CtrlCreates(s, env);
      Turn(s);
      ReservedQuiet(s, HashId(r.id));
    } else if !Hits(s, r.id) {
      PopCore(s, CtrlState(s, env));
    } else if s.slots[HashId(r.id)].kind != Reserve {
      CtrlReaches(s, env);
    } else if Clean(s, Ctrl(env)) {
      var t := CtrlState(s, env);
      assert t.slots == s.slots;
      PopCore(s, t);
    } else {
      CtrlBreaks(s, env);
    }
  }

  lemma ReservedQuiet(s: State, i: nat)
    requires SlotsOk(s) && i < SLOTS && s.slots[i].kind == Reserve
    ensures s.slots[i].pending == 0
  {
    hide Home, IdOf;
    assert SlotOk(s.slots[i], i, s);
  }

  lemma CtrlBreaks(s: State, env: Env)
    requires Core(s) && Ready(s, Ctrl(env)) && !Clean(s, Ctrl(env))
    ensures !Asserts(s, Ctrl(env)) || !Core(CtrlState(s, env))
  {
    hide Home, IdOf, Created, MarkedOk, NoLeak, AllNewest, HashId, Numbers, Ordered, Promised;
    var i, t := HashId(s.pipe[0].id), CtrlState(s, env);
    ReservedQuiet(s, i);
    if s.pipe[0].cmd == DoSend {
      assert t.slots[i].kind == Reserve && t.slots[i].pending == 1;
      assert !SlotOk(t.slots[i], i, t);
    }
  }

  /** Otherwise an assertion fails, or the reserved slot's lists do not stay empty. */
  lemma CtrlUnclean(s: State, env: Env)
    requires Core(s) && Ready(s, Ctrl(env)) && !Clean(s, Ctrl(env))
    ensures !Asserts(s, Ctrl(env)) || !Intact(CtrlState(s, env))
  {
    hide Home, IdOf, Created, MarkedOk, NoLeak, AllNewest, HashId, Numbers, Ordered, Promised, EventsOk;
    var r := s.pipe[0];
    var i, t := HashId(r.id), CtrlState(s, env);
    ReservedQuiet(s, i);
    if r.cmd == DoSend { assert t.slots[i].kind == Reserve && t.slots[i].pending == 1; }
  }

  lemma CtrlEvents(s: State, env: Env)
    requires Inv(s) && Ready(s, Ctrl(env)) && Fresh(s, Ctrl(env)) && Clean(s, Ctrl(env))
    ensures EventsOk(CtrlState(s, env)) && FreeOk(CtrlState(s, env))
  {
    hide Home, IdOf, Created, MarkedOk, NoLeak, AllNewest, HashId, Numbers, Ordered, Promised, SlotsOk;
    Turn(s);
    var r, t := s.pipe[0], CtrlState(s, env);
    var i := Home(r.who);
    forall k | Awaits(t, k) ensures 0 <= t.ev[k].at < SLOTS && (Alive(t, t.ev[k]) || Closing(t, t.ev[k])) {
      assert Awaits(s, k) && Alive(s, s.ev[k]);
    }
  }

  lemma SameCore(s: State, t: State)
    requires Core(s) && t == s.(ev := t.ev, index := t.index, pc := t.pc)
    ensures Core(t)
  {
    hide Home, IdOf, Created, Ordered, AllNewest;
    SlotsSame(s, t);
    SameNewest(s, t);
    assert Ordered(t) by { OrderedSame(s, t); }
    assert Owed(t) == Owed(s);
    assert forall w :: Held(t, w) == Held(s, w);
  }

  lemma OrderedSame(s: State, t: State)
    requires Ordered(s) && t.pipe == s.pipe && t.issued == s.issued && t.unsent == s.unsent && t.listeners == s.listeners
    ensures Ordered(t)
  { }

  /** The second freeing after a failed add: harmless exactly if the slot is still free; a
      reservation made since loses its slot. */
  lemma FreeAgainSound(s: State)
    requires Inv(s) && Ready(s, FreeAgain)
    ensures Clean(s, FreeAgain) ==> Inv(Do(s, FreeAgain))
    ensures !Clean(s, FreeAgain) ==> !Intact(Do(s, FreeAgain))
  {
    hide Home, IdOf, Created, Ordered, AllNewest, Promised, Numbers;
    var i, t := Home(s.pc.n), Do(s, FreeAgain);
    if Clean(s, FreeAgain) {
      assert t.slots == s.slots;
      SameCore(s, t);
      assert forall k :: Awaits(t, k) <==> Awaits(s, k);
    } else {
      var w := s.slots[i].born;
      assert i !in s.marked ==> w in Owed(s);
      assert SlotOk(s.slots[i], i, s);
      assert Owed(t) == Owed(s);
      assert i !in s.marked ==> !Held(t, w);
    }
  }

  lemma ClearKeeps(s: State)
    requires Inv(s) && Ready(s, Clear)
    ensures Inv(Do(s, Clear))
    ensures forall k :: Awaits(Do(s, Clear), k) ==> Alive(Do(s, Clear), Do(s, Clear).ev[k])
  {
    hide Home, IdOf, Created, Ordered, AllNewest, Promised, Numbers, SlotsOk, MarkedOk, NoLeak;
    var t := Do(s, Clear);
    SameCore(s, t);
    forall k | Awaits(t, k) ensures 0 <= t.ev[k].at < SLOTS && Alive(t, t.ev[k]) {
      assert Awaits(s, k);
    }
  }

  lemma PollKeeps(s: State, batch: seq<Event>)
    requires Inv(s) && Ready(s, Poll(batch))
    ensures Inv(Do(s, Poll(batch)))
  {
    hide Home, IdOf, Created, Ordered, AllNewest, Promised, Numbers, SlotsOk, MarkedOk, NoLeak;
    var t := Do(s, Poll(batch));
    SameCore(s, t);
    forall k | Awaits(t, k) ensures 0 <= t.ev[k].at < SLOTS && Alive(t, t.ev[k]) {
      assert Alive(s, batch[k]);
    }
  }

  /** With the poll thread between two commands, every event left belongs to a live socket. */
  lemma EventsAlive(s: State, k: int)
    requires |s.slots| == SLOTS && EventsOk(s) && s.pc == Idle && Awaits(s, k)
    ensures 0 <= s.ev[k].at < SLOTS && Alive(s, s.ev[k])
  { }

  lemma ServeCore(s: State, env: Env)
    requires Inv(s) && Ready(s, Serve(env, 0))
    ensures Core(ServeState(s, env, 0)) && Asserts(s, Serve(env, 0)) && Right(s, Serve(env, 0))
  {
    hide Home, IdOf, Created, Ordered, AllNewest, Numbers, EventsOk;
    var e, t := s.ev[s.index], ServeState(s, env, 0);
    if e.at == -1 {
      SameCore(s, t);
    } else {
      assert Awaits(s, s.index);
      EventsAlive(s, s.index);
      var x := s.slots[e.at];
      assert SlotOk(x, e.at, s);
      if x.kind == Listen {
        SameCore(s, t);
      } else {
        assert x.born in Owed(s) ==> Held(s, x.born);
        OrderedSame(s, t);
        SettleSlots(s, t, e.at, Served(x, e, env));
        SettlePromised(s, t, e.at, Served(x, e, env));
      }
    }
  }

  lemma ServeEvents(s: State, env: Env)
    requires Inv(s) && Ready(s, Serve(env, 0))
    ensures EventsOk(ServeState(s, env, 0)) && FreeOk(ServeState(s, env, 0))
  {
    hide Home, IdOf, Created, Ordered, AllNewest, Numbers, SlotsOk, MarkedOk, NoLeak, Promised;
    var e, t := s.ev[s.index], ServeState(s, env, 0);
    assert e.at != -1 ==> Awaits(s, s.index);
    forall k | Awaits(t, k) ensures 0 <= t.ev[k].at < SLOTS && (Alive(t, t.ev[k]) || Closing(t, t.ev[k])) {
      assert Awaits(s, k) && Alive(s, s.ev[k]);
    }
  }

  lemma AcceptSlots(s: State, env: Env, n: nat)
    requires Inv(s) && n > 0 && Ready(s, Serve(env, n))
    ensures var t := ServeState(s, env, n); SlotsOk(t) && MarkedOk(t)
  {
    hide IdOf, Home, Created, Ordered, AllNewest, EventsOk, FreeOk, HashId, Promised, NoLeak;
    var t := ServeState(s, env, n);
    assert forall j :: 0 <= j < SLOTS ==> SlotOk(s.slots[j], j, s);
    assert forall j :: j in s.marked ==> s.marked[j] in s.marked.Values;
    assert Owed(t) == Owed(s);
  }

  lemma AcceptPromised(s: State, env: Env, n: nat)
    requires Inv(s) && n > 0 && Ready(s, Serve(env, n))
    ensures var t := ServeState(s, env, n); Promised(t) && NoLeak(t)
  {
    hide IdOf, Home, Created, Ordered, AllNewest, EventsOk, FreeOk, HashId, SlotsOk, MarkedOk;
    var t := ServeState(s, env, n);
    assert Owed(t) == Owed(s);
    forall w | w in Owed(t) ensures Held(t, w) { assert Held(s, w); }
  }

  lemma AcceptNumbers(s: State, env: Env, n: nat)
    requires Inv(s) && n > 0 && Ready(s, Serve(env, n)) && s.allocs < n + IDS
    ensures var t := ServeState(s, env, n); Ordered(t) && Numbers(t) && AllNewest(t)
  {
    hide IdOf, Home, Created, Promised, NoLeak, EventsOk, FreeOk, HashId;
    var t := ServeState(s, env, n);
    assert forall j :: 0 <= j < SLOTS ==> SlotOk(s.slots[j], j, s);
    assert forall j :: j in s.marked ==> j != Home(n);
    forall w | w in s.issued && IdOf(w) == IdOf(n) ensures w <= n { DrawnFresh(s, n, w); }
    forall j | 0 <= j < SLOTS && t.slots[j].born != 0 ensures Newest(t, t.slots[j].born) {
      NewestStays(s, n, t, t.slots[j].born, j);
    }
    forall j | j in t.marked ensures Newest(t, t.marked[j]) { NewestStays(s, n, t, t.marked[j], j); }
  }

  lemma AcceptEvents(s: State, env: Env, n: nat)
    requires Inv(s) && n > 0 && Ready(s, Serve(env, n))
    ensures EventsOk(ServeState(s, env, n)) && FreeOk(ServeState(s, env, n))
    ensures Asserts(s, Serve(env, n)) && Right(s, Serve(env, n))
  {
    hide Home, IdOf, Created, Ordered, AllNewest, Numbers, SlotsOk, MarkedOk, NoLeak, Promised, HashId;
    var t := ServeState(s, env, n);
    assert Awaits(s, s.index);
    forall k | Awaits(t, k) ensures 0 <= t.ev[k].at < SLOTS && Alive(t, t.ev[k]) {
      assert Awaits(s, k) && Alive(s, s.ev[k]);
    }
  }

  lemma ServeKeeps(s: State, env: Env, n: nat)
    requires Inv(s) && Ready(s, Serve(env, n)) && Fresh(s, Serve(env, n))
    ensures Inv(Do(s, Serve(env, n))) && Asserts(s, Serve(env, n)) && Right(s, Serve(env, n))
  {
    hide Home, IdOf, Created, Ordered, AllNewest, Numbers, SlotsOk, MarkedOk, NoLeak, Promised, EventsOk, FreeOk, Asserts, Right, ServeState;
    if n == 0 {
      ServeCore(s, env);
      ServeEvents(s, env);
    } else {
      AcceptSlots(s, env, n);
      AcceptPromised(s, env, n);
      AcceptNumbers(s, env, n);
      AcceptEvents(s, env, n);
    }
    ServeLength(s, env, n);
  }

  lemma ServeLength(s: State, env: Env, n: nat)
    requires |s.slots| == SLOTS && Ready(s, Serve(env, n))
    ensures |ServeState(s, env, n).slots| == SLOTS
  { }

  lemma InvIntact(s: State)
    requires Inv(s)
    ensures Intact(s)
  {
    hide Home, IdOf, Created, Ordered, AllNewest, Numbers, EventsOk;
    assert forall i :: 0 <= i < SLOTS ==> SlotOk(s.slots[i], i, s);
  }

  // ---- a step is sound exactly if no window is open -------------------------------------------

  /** From any state a run can reach: a clean step keeps the invariant. */
  lemma StepKeeps(s: State, a: Act)
    requires Inv(s) && Ready(s, a) && Fresh(s, a) && Clean(s, a)
    ensures Inv(Do(s, a)) && Asserts(s, a) && Right(s, a)
  {
    hide Core, EventsOk, FreeOk, Clean, Asserts, Right, Do, CtrlState, Ready, Fresh;
    match a {
      case Draw => DrawKeeps(s);
      case Miss(n) => MissKeeps(s, n);
      case Mark(n) => MarkKeeps(s, n);
      case Store(i) => StoreKeeps(s, i);
      case Publish(w, cmd) => PublishKeeps(s, w, cmd);
      case Ask(r) => AskKeeps(s, r);
      case Ctrl(env) => CtrlKeeps(s, env);
      case FreeAgain => FreeAgainSound(s);
      case Clear => ClearKeeps(s);
      case Poll(batch) => PollKeeps(s, batch);
      case Serve(env, n) => ServeKeeps(s, env, n);
    }
    if !a.Serve? { NothingElse(s, a); }
  }

  lemma CtrlKeeps(s: State, env: Env)
    requires Inv(s) && Ready(s, Ctrl(env)) && Fresh(s, Ctrl(env)) && Clean(s, Ctrl(env))
    ensures Inv(Do(s, Ctrl(env))) && Asserts(s, Ctrl(env))
  {
    hide Core, EventsOk, FreeOk, Clean, Asserts, Handled, Hits;
    CtrlCore(s, env);
    CtrlEvents(s, env);
  }

  lemma NothingElse(s: State, a: Act)
    requires |s.slots| == SLOTS && Ready(s, a) && !a.Serve?
    ensures Right(s, a) && (!a.Ctrl? ==> Asserts(s, a))
  { }

  /** For every step from such a state: the code's assertions hold, the event goes to its own
      socket, and reservations, lists and events stay intact, if and only if the step falls into
      no open window. */
  lemma SoundIffClean(s: State, a: Act)
    requires Inv(s) && Ready(s, a) && Fresh(s, a)
    ensures Sound(s, a) <==> Clean(s, a)
  {
    hide Core, EventsOk, FreeOk, Asserts, Right, Intact, CtrlState;
    if Clean(s, a) {
      StepKeeps(s, a);
      InvIntact(Do(s, a));
    } else {
      match a {
        case Mark(n) => MarkUnclean(s, n);
        case Ctrl(env) => CtrlUnclean(s, env);
        case FreeAgain => FreeAgainSound(s);
      }
    }
  }

  lemma MarkUnclean(s: State, n: nat)
    requires Inv(s) && Ready(s, Mark(n)) && !Clean(s, Mark(n))
    ensures !Intact(Do(s, Mark(n)))
  {
    hide Core, Clean;
    MarkEvents(s, n);
  }
}
