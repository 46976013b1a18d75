/** The life of a socket, told by what was asked for and what the system answered, and proved of the
    slot that holds it in every run of the slot table. */
module SocketLife {
  import opened SocketSlots
  import opened SocketPoll
  import opened SocketRuns

  datatype Origin = Opening | Listening | Binding | Accepted

  /** How the socket came about, whether it was started, whether its connect has ended, and whether it
      was asked to close. */
  datatype Life = Life(origin: Origin, started: bool, connected: bool, closing: bool)

  /** The kind such a socket has as long as it lives. */
  function KindOf(l: Life): Kind {
    match l.origin
    case Listening => if l.started then Listen else PListen
    case Binding => if l.closing then HalfClose else Bind
    case Accepted => if l.closing then HalfClose else if l.started then Connected else PAccept
    case Opening => if l.closing then HalfClose else if l.connected then Connected else Connecting
  }

  type Story = map<nat, Life>

  /** What a step tells about the lives of the sockets. */
  function Told(m: Story, s: State, a: Act): Story
    requires |s.slots| == SLOTS && Ready(s, a)
  {
    match a
    case Ctrl(env) =>
      var r := s.pipe[0];
      (match r.cmd
       case DoOpen => if env.fate == Fail || env.addFails then m else m[r.who := Life(Opening, false, env.fate == Fine, false)]
       case DoListen => m[r.who := Life(Listening, false, false, false)]
       case DoBind => if env.addFails then m else m[r.who := Life(Binding, false, false, false)]
       case DoStart => if env.addFails || r.who !in m then m else m[r.who := m[r.who].(started := true)]
       case DoClose => if r.who !in m then m else m[r.who := m[r.who].(closing := true)]
       case DoSend => m)
    case Serve(env, n) =>
      var e := s.ev[s.index];
      if e.at == -1 then m
      else if n > 0 then m[n := Life(Accepted, false, false, false)]
      else if e.who in m && m[e.who].origin == Opening && env.fate != Fail then m[e.who := m[e.who].(connected := true)]
      else m
    case _ => m
  }

  /** The lives after the first n steps of a run. */
  function StoryOf(states: seq<State>, acts: seq<Act>, n: nat): Story
    requires |states| == |acts| + 1 && n <= |acts|
    requires forall k :: 0 <= k < |acts| ==> |states[k].slots| == SLOTS && Ready(states[k], acts[k])
  {
    if n == 0 then map[] else Told(StoryOf(states, acts, n - 1), states[n - 1], acts[n - 1])
  }

  /** The slot holds a socket that was created. */
  predicate Lives(x: Slot) { x.kind != Invalid && x.kind != Reserve }

  /** Every such slot has the kind its socket's life says. */
  ghost predicate Telling(s: State, m: Story)
    requires |s.slots| == SLOTS
  {
    forall i :: 0 <= i < SLOTS && Lives(s.slots[i]) ==> s.slots[i].born in m && s.slots[i].kind == KindOf(m[s.slots[i].born])
  }

  // ---- every step -------------------------------------------------------------------------------

  /** A command changes at most the slot of the allocation it is for. */
  lemma CtrlTelling(s: State, m: Story, env: Env)
    requires Inv(s) && Ready(s, Ctrl(env)) && Fresh(s, Ctrl(env)) && Clean(s, Ctrl(env)) && Telling(s, m)
    ensures |CtrlState(s, env).slots| == SLOTS && Telling(CtrlState(s, env), Told(m, s, Ctrl(env)))
  {
    hide Home, IdOf, HashId, Created, Promised, NoLeak, AllNewest, Numbers, Ordered, EventsOk, FreeOk;
    Turn(s);
    var r, t := s.pipe[0], CtrlState(s, env);
    var h := Home(r.who);
    NoOther(s, r);
    forall i | 0 <= i < SLOTS && Lives(t.slots[i])
      ensures t.slots[i].born in Told(m, s, Ctrl(env)) && t.slots[i].kind == KindOf(Told(m, s, Ctrl(env))[t.slots[i].born])
    {
      if i != h {
        assert t.slots[i] == s.slots[i] && s.slots[i].born != r.who;
      }
    }
  }

  /** No other slot holds a socket of the allocation the first request is for. */
  lemma NoOther(s: State, r: Request)
    requires Inv(s) && s.pipe != [] && r == s.pipe[0]
    ensures forall i :: 0 <= i < SLOTS && i != Home(r.who) && Lives(s.slots[i]) ==> s.slots[i].born != r.who
    ensures HashId(r.id) == Home(r.who)
    ensures Lives(s.slots[Home(r.who)]) && s.slots[Home(r.who)].born == r.who ==> Hits(s, r.id)
  {
    hide Home, IdOf, HashId, Created, Promised, NoLeak, EventsOk, FreeOk;
    HitsExact(s, r.who);
    forall i | 0 <= i < SLOTS && i != Home(r.who) && Lives(s.slots[i]) ensures s.slots[i].born != r.who {
      assert SlotOk(s.slots[i], i, s);
    }
  }

  lemma ServeTelling(s: State, m: Story, env: Env, n: nat)
    requires Inv(s) && Ready(s, Serve(env, n)) && Telling(s, m)
    ensures |ServeState(s, env, n).slots| == SLOTS && Telling(ServeState(s, env, n), Told(m, s, Serve(env, n)))
  {
    hide Home, IdOf, HashId, Core, EventsOk, FreeOk;
    var e := s.ev[s.index];
    if e.at != -1 {
      assert Awaits(s, s.index);
      EventsAlive(s, s.index);
      Fresh1(s, n);
      var t := ServeState(s, env, n);
      forall i | 0 <= i < SLOTS && Lives(t.slots[i])
        ensures t.slots[i].born in Told(m, s, Serve(env, n)) && t.slots[i].kind == KindOf(Told(m, s, Serve(env, n))[t.slots[i].born])
      {
        if i != e.at && Lives(s.slots[i]) { Apart(s, i, e); }
      }
    }
  }

  lemma Apart(s: State, i: nat, e: Event)
    requires Inv(s) && i < SLOTS && 0 <= e.at < SLOTS && Alive(s, e) && i != e.at && Lives(s.slots[i])
    ensures s.slots[i].born != e.who
  {
    hide Home, IdOf, HashId, Created, Promised, NoLeak, AllNewest, Ordered, FreeOk, EventsOk;
    assert SlotOk(s.slots[i], i, s) && SlotOk(s.slots[e.at], e.at, s);
  }

  /** A number that was only drawn is in no live slot. */
  lemma Fresh1(s: State, n: nat)
    requires Inv(s)
    ensures n in s.drawn ==> forall i :: 0 <= i < SLOTS && Lives(s.slots[i]) ==> s.slots[i].born != n
  {
    hide Home, IdOf, HashId, Created, Promised, NoLeak, AllNewest, Ordered, FreeOk, EventsOk;
    if n in s.drawn {
      forall i | 0 <= i < SLOTS && Lives(s.slots[i]) ensures s.slots[i].born != n {
        assert SlotOk(s.slots[i], i, s);
      }
    }
  }

  lemma StepTelling(s: State, m: Story, a: Act)
    requires Inv(s) && Ready(s, a) && Fresh(s, a) && Clean(s, a) && Telling(s, m)
    ensures |Do(s, a).slots| == SLOTS && Telling(Do(s, a), Told(m, s, a))
  {
    hide Inv, Home, IdOf, HashId, CtrlState, ServeState, KindOf;
    match a
    case Ctrl(env) => CtrlTelling(s, m, env);
    case Serve(env, n) => ServeTelling(s, m, env, n);
    case _ => OthersTelling(s, m, a);
  }

  lemma OthersTelling(s: State, m: Story, a: Act)
    requires Inv(s) && Ready(s, a) && !a.Ctrl? && !a.Serve? && Telling(s, m)
    ensures |Do(s, a).slots| == SLOTS && Telling(Do(s, a), Told(m, s, a))
  {
    hide Home, IdOf, HashId, Created, Promised, NoLeak, AllNewest, Numbers, Ordered, EventsOk, SlotsOk, KindOf;
    assert forall i :: i in s.marked ==> s.slots[i].kind == Reserve;
  }

  /** In every run: a live socket that listens waits for its start and listens after it, an accepted one
      waits for its start and is connected after it, an opened one is connecting until its connect has
      ended, and a socket that was asked to close and still lives is half-closed. */
  lemma {:induction false} LifeStory(states: seq<State>, acts: seq<Act>, n: nat)
    requires GoodRun(states, acts) && n <= |acts|
    ensures Telling(states[n], StoryOf(states, acts, n))
  {
    hide Inv, Do, Ready, Fresh, Clean, Init, Told, Telling;
    if n == 0 {
      NoneLive();
    } else {
      LifeStory(states, acts, n - 1);
      RunInv(states, acts, n - 1);
      StepTelling(states[n - 1], StoryOf(states, acts, n - 1), acts[n - 1]);
    }
  }

  lemma NoneLive()
    ensures |Init().slots| == SLOTS && Telling(Init(), map[])
  { }

  // ---- the beginning of a life ---------------------------------------------------------------------

  /** In every run: a creation that is carried out makes a socket of its reserved slot, except if the open
      or adding to the poller fails; then the slot is free. An accepted connection makes one of a free
      slot. */
  lemma Birth(states: seq<State>, acts: seq<Act>, k: nat)
    requires GoodRun(states, acts) && k < |acts|
    ensures acts[k].Ctrl? && Creates(states[k].pipe[0]) ==>
      var r, env := states[k].pipe[0], acts[k].env;
      var x, y := states[k].slots[Home(r.who)], states[k + 1].slots[Home(r.who)];
      && x.kind == Reserve && x.born == r.who && y == x.(kind := y.kind, pending := 0) && y.kind != Reserve
      && (y.kind == Invalid <==> (r.cmd == DoOpen && (env.fate == Fail || env.addFails)) || (r.cmd == DoBind && env.addFails))
    ensures acts[k].Serve? && acts[k].n > 0 ==>
      var n := acts[k].n;
      states[k].slots[Home(n)].kind == Invalid && states[k + 1].slots[Home(n)] == Slot(PAccept, IdOf(n), n, 0)
  {
    hide Inv, Init, Home, IdOf, HashId;
    RunInv(states, acts, k);
    if acts[k].Ctrl? {
      InvCore(states[k]);
      Turn(states[k]);
    }
  }

  // ---- the end of a life, and what is queued ----------------------------------------------------

  /** The next request is for the socket in slot i. */
  predicate Asked(s: State, a: Act, i: nat, cmd: Cmd)
    requires |s.slots| == SLOTS && i < SLOTS && Ready(s, a)
  {
    a.Ctrl? && s.pipe[0].cmd == cmd && s.pipe[0].who == s.slots[i].born
  }

  /** The event served is one of the socket in slot i. */
  predicate Signalled(s: State, a: Act, i: nat)
    requires |s.slots| == SLOTS && i < SLOTS && Ready(s, a)
  {
    a.Serve? && s.ev[s.index].at == i
  }

  function Least(a: nat, b: nat): nat { if a < b then a else b }

  /** The four ways a socket dies: its start cannot be added to the poller; it is asked to close and
      nothing stays queued; a direct write fails; or one of its events does, or finds it half-closed
      with everything written. */
  predicate Dies(s: State, a: Act, i: nat)
    requires |s.slots| == SLOTS && i < SLOTS && Ready(s, a)
  {
    var x := s.slots[i];
    || (Asked(s, a, i, DoStart) && (x.kind == PListen || x.kind == PAccept) && a.env.addFails)
    || (Asked(s, a, i, DoClose) && !(x.pending > 0 && a.env.left > 0 && a.env.fate == Wait))
    || (Asked(s, a, i, DoSend) && x.kind == Connected && x.pending == 0 && a.env.fate == Fail)
    || (Signalled(s, a, i) && x.kind != Listen
        && if x.kind == Connecting || s.ev[s.index].read then a.env.fate == Fail
           else s.ev[s.index].write && (a.env.fate == Fail || (a.env.fate == Fine && x.kind == HalfClose)))
  }

  /** The buffers queued afterwards. */
  function Backlog(s: State, a: Act, i: nat): nat
    requires |s.slots| == SLOTS && i < SLOTS && Ready(s, a)
  {
    var x := s.slots[i];
    if Asked(s, a, i, DoSend) then
      if x.kind == HalfClose || x.kind == PAccept || (x.kind == Connected && x.pending == 0 && a.env.fate == Fine) then x.pending
      else x.pending + 1
    else if Asked(s, a, i, DoClose)
            || (Signalled(s, a, i) && x.kind != Listen && x.kind != Connecting && !s.ev[s.index].read && s.ev[s.index].write)
    then if a.env.fate == Fine then 0 else Least(a.env.left, x.pending)
    else x.pending
  }

  lemma CtrlDies(s: State, env: Env, i: nat)
    requires Inv(s) && Ready(s, Ctrl(env)) && Fresh(s, Ctrl(env)) && Clean(s, Ctrl(env)) && i < SLOTS && Lives(s.slots[i])
    ensures var t := CtrlState(s, env);
      && |t.slots| == SLOTS && t.slots[i].id == s.slots[i].id && t.slots[i].born == s.slots[i].born
      && (t.slots[i].kind == Invalid <==> Dies(s, Ctrl(env), i)) && t.slots[i].kind != Reserve
      && (t.slots[i].kind != Invalid ==> t.slots[i].pending == Backlog(s, Ctrl(env), i))
  {
    hide Home, IdOf, HashId, SlotsOk, MarkedOk, Created, Promised, NoLeak, AllNewest, Numbers, Ordered, EventsOk, FreeOk;
    Turn(s);
    NoOther(s, s.pipe[0]);
    Unqueued(s, i);
  }

  /** Sockets that cannot be written to have nothing queued. */
  lemma Unqueued(s: State, i: nat)
    requires Inv(s) && i < SLOTS
    ensures Quiet(s.slots[i].kind) ==> s.slots[i].pending == 0
  {
    hide Home, IdOf, HashId, Created, Promised, NoLeak, AllNewest, Numbers, Ordered, EventsOk, FreeOk;
    assert SlotOk(s.slots[i], i, s);
  }

  lemma ServeDies(s: State, env: Env, n: nat, i: nat)
    requires Inv(s) && Ready(s, Serve(env, n)) && i < SLOTS && Lives(s.slots[i])
    ensures var t := ServeState(s, env, n);
      && |t.slots| == SLOTS && t.slots[i].id == s.slots[i].id && t.slots[i].born == s.slots[i].born
      && (t.slots[i].kind == Invalid <==> Dies(s, Serve(env, n), i)) && t.slots[i].kind != Reserve
      && (t.slots[i].kind != Invalid ==> t.slots[i].pending == Backlog(s, Serve(env, n), i))
  {
    hide Home, IdOf, HashId, Core, EventsOk, FreeOk;
    var e := s.ev[s.index];
    if e.at != -1 {
      assert Awaits(s, s.index);
      EventsAlive(s, s.index);
    }
  }

  lemma OthersLive(s: State, a: Act, i: nat)
    requires Inv(s) && Ready(s, a) && Clean(s, a) && !a.Ctrl? && !a.Serve? && i < SLOTS && Lives(s.slots[i])
    ensures |Do(s, a).slots| == SLOTS && Do(s, a).slots[i] == s.slots[i]
  {
    hide Home, IdOf, HashId, Created, Promised, NoLeak, AllNewest, Numbers, Ordered, EventsOk, SlotsOk;
    assert i !in s.marked;
  }

  /** In every run a live socket keeps its slot, identifier and number until it dies in one of the four
      ways, exactly then, and its queue grows and shrinks as told. */
  lemma EndOfLife(states: seq<State>, acts: seq<Act>, k: nat, i: nat)
    requires GoodRun(states, acts) && k < |acts| && i < SLOTS && Lives(states[k].slots[i])
    ensures var x, y := states[k].slots[i], states[k + 1].slots[i];
      && y.id == x.id && y.born == x.born && y.kind != Reserve
      && (y.kind == Invalid <==> Dies(states[k], acts[k], i))
      && (y.kind != Invalid ==> y.pending == Backlog(states[k], acts[k], i))
  {
    hide Inv, Init, Home, IdOf, HashId, Dies, Backlog, CtrlState, ServeState;
    RunInv(states, acts, k);
    var s, a := states[k], acts[k];
    match a
    case Ctrl(env) => CtrlDies(s, env, i);
    case Serve(env, n) => ServeDies(s, env, n, i);
    case _ =>
      OthersLive(s, a, i);
      Untouched(s, a, i);
  }

  lemma Untouched(s: State, a: Act, i: nat)
    requires |s.slots| == SLOTS && i < SLOTS && Ready(s, a) && !a.Ctrl? && !a.Serve?
    ensures !Dies(s, a, i) && Backlog(s, a, i) == s.slots[i].pending
  { }

  // ---- events -------------------------------------------------------------------------------------

  /** An event with both flags, of a socket that reads and writes, is served twice, first for reading
      and then for writing; every other event once. */
  lemma EventTurns(states: seq<State>, acts: seq<Act>, k: nat)
    requires GoodRun(states, acts) && k < |acts| && acts[k].Serve?
    ensures var s, t := states[k], states[k + 1];
      var e := s.ev[s.index];
      && |t.ev| == |s.ev| && (forall j :: 0 <= j < |s.ev| && j != s.index ==> t.ev[j] == s.ev[j])
      && if e.at != -1 && Ordinary(s.slots[e.at].kind) && e.read && e.write
         then t.index == s.index && t.ev[s.index] == e.(read := false)
         else t.index == s.index + 1 && t.ev[s.index] == e
  {
    hide Inv, Init, Home, IdOf, HashId;
  }

  /** No socket of allocation w is in its slot. */
  predicate Absent(s: State, w: nat)
    requires |s.slots| == SLOTS
  {
    s.slots[Home(w)].kind == Invalid || s.slots[Home(w)].born != w
  }

  /** A command takes one request. If its socket is there afterwards nothing follows; otherwise the slot
      is freed again after a failed add, and else the events of the socket are cleared, except that a
      send to a socket long gone is dropped. */
  lemma ThenClears(states: seq<State>, acts: seq<Act>, k: nat)
    requires GoodRun(states, acts) && k < |acts| && acts[k].Ctrl?
    ensures var s, t := states[k], states[k + 1];
      var r := s.pipe[0];
      && t.pipe == s.pipe[1..]
      && t.pc == if !Absent(t, r.who) then Idle
                 else if r.cmd == DoOpen && acts[k].env.fate != Fail then Freeing(r.who)
                 else if r.cmd == DoSend && Absent(s, r.who) then Idle
                 else Clearing(r.id)
  {
    hide Inv, Init, Home, IdOf, HashId;
    RunInv(states, acts, k);
    var s := states[k];
    InvCore(s);
    Turn(s);
    NoOther(s, s.pipe[0]);
  }

  /** A served event is followed by the clearing of the other events of its socket exactly if serving it
      closed the socket; only a connection that did not come about is closed without. */
  lemma ServeClears(states: seq<State>, acts: seq<Act>, k: nat)
    requires GoodRun(states, acts) && k < |acts| && acts[k].Serve?
    ensures var s, t := states[k], states[k + 1];
      var e := s.ev[s.index];
      && t.pipe == s.pipe
      && t.pc == if e.at != -1 && s.slots[e.at].kind != Connecting && t.slots[e.at].kind == Invalid then Clearing(IdOf(e.who)) else Idle
  {
    hide Init, Home, HashId, IdOf, Core, Served;
    RunInv(states, acts, k);
    var s := states[k];
    if s.ev[s.index].at != -1 {
      EventsAlive(s, s.index);
      BornId(s, s.ev[s.index].at);
    }
  }

  lemma BornId(s: State, i: nat)
    requires Core(s) && i < SLOTS && Registered(s.slots[i].kind)
    ensures s.slots[i].id == IdOf(s.slots[i].born)
  {
    hide IdOf, Home, Promised, NoLeak, Ordered, Numbers, AllNewest;
    assert SlotOk(s.slots[i], i, s);
  }

  /** After a failed add the slot is freed a second time and the events of its socket are cleared. */
  lemma FreedTwice(states: seq<State>, acts: seq<Act>, k: nat)
    requires GoodRun(states, acts) && k < |acts| && acts[k] == FreeAgain
    ensures var s, t := states[k], states[k + 1];
      && s.pc.Freeing? && t.pc == Clearing(IdOf(s.pc.n)) && t.slots == s.slots && t.slots[Home(s.pc.n)].kind == Invalid
  {
    hide Init, Core, EventsOk;
    RunInv(states, acts, k);
  }

  /** A number that found its slot taken is given up: no socket ever gets it. */
  ghost predicate GivenUp(s: State, n: nat) {
    0 < n <= s.allocs && n !in s.drawn && n !in s.issued && forall i :: i in s.marked ==> s.marked[i] != n
  }

  lemma MissGivesUp(s: State, n: nat)
    requires Core(s) && Ready(s, Miss(n))
    ensures GivenUp(Do(s, Miss(n)), n)
  {
    hide SlotsOk, MarkedOk, Promised, NoLeak, Ordered, AllNewest, Home;
    forall i | i in s.marked ensures s.marked[i] != n { assert s.marked[i] in s.marked.Values; }
  }

  lemma StillGivenUp(s: State, a: Act, n: nat)
    requires |s.slots| == SLOTS && Ready(s, a) && GivenUp(s, n)
    ensures GivenUp(Do(s, a), n)
  {
    hide Home, IdOf, HashId, Handled, Served, Hits, Cleared, LegalBatch;
  }

  lemma {:induction false} MissedNever(states: seq<State>, acts: seq<Act>, k: nat, m: nat)
    requires GoodRun(states, acts) && k < m <= |acts| && acts[k].Miss?
    ensures GivenUp(states[m], acts[k].n)
    decreases m
  {
    hide Inv, Init, GivenUp;
    if m == k + 1 {
      RunInv(states, acts, k);
      InvCore(states[k]);
      MissGivesUp(states[k], acts[k].n);
    } else {
      MissedNever(states, acts, k, m - 1);
      StillGivenUp(states[m - 1], acts[m - 1], acts[k].n);
    }
  }

  lemma InvCore(s: State)
    requires Inv(s)
    ensures Core(s)
  { }
}
