/** Whole runs of the slot table: every interleaving of the steps in SocketSlots, when it is
    safe, and runs in which it is not. */
module SocketRuns {
  import opened SocketSlots
  import opened SocketPoll

  // ---- whole runs -------------------------------------------------------------------------------

  function Init(): State {
    State(seq(SLOTS, i => Slot(Invalid, 0, 0, 0)), 0, {}, map[], {}, {}, {}, [], [], 0, Idle)
  }

  lemma InitInv()
    ensures Inv(Init())
  {
    var s := Init();
    assert Created(s.pipe) == {} && s.marked.Values == {};
    assert forall i :: 0 <= i < SLOTS ==> s.slots[i] == Slot(Invalid, 0, 0, 0);
  }

  /** Any interleaving of the steps of all threads. */
  ghost predicate IsRun(states: seq<State>, acts: seq<Act>) {
    && |states| == |acts| + 1 && states[0] == Init()
    && (forall k :: 0 <= k < |states| ==> |states[k].slots| == SLOTS)
    && (forall k :: 0 <= k < |acts| ==> Ready(states[k], acts[k]) && states[k + 1] == Do(states[k], acts[k]))
  }

  ghost predicate FreshRun(states: seq<State>, acts: seq<Act>)
    requires IsRun(states, acts)
  {
    forall k :: 0 <= k < |acts| ==> Fresh(states[k], acts[k])
  }

  ghost predicate CleanTo(states: seq<State>, acts: seq<Act>, n: nat)
    requires IsRun(states, acts) && n <= |acts|
  {
    forall k :: 0 <= k < n ==> Clean(states[k], acts[k])
  }

  lemma {:induction false} RunInv(states: seq<State>, acts: seq<Act>, n: nat)
    requires IsRun(states, acts) && FreshRun(states, acts) && n <= |acts| && CleanTo(states, acts, n)
    ensures Inv(states[n])
  {
    hide Inv, Do, Ready, Fresh, Clean, Init;
    if n == 0 {
      InitInv();
    } else {
      RunInv(states, acts, n - 1);
      StepKeeps(states[n - 1], acts[n - 1]);
    }
  }

  /** Over every run: all steps are sound if and only if none falls into an open window. */
  lemma RunSoundIffClean(states: seq<State>, acts: seq<Act>)
    requires IsRun(states, acts) && FreshRun(states, acts)
    ensures (forall k :: 0 <= k < |acts| ==> Sound(states[k], acts[k])) <==> CleanTo(states, acts, |acts|)
  {
    hide Inv, Do, Ready, Fresh, Clean, Sound, Init;
    if CleanTo(states, acts, |acts|) {
      forall k | 0 <= k < |acts| ensures Sound(states[k], acts[k]) {
        RunInv(states, acts, k);
        SoundIffClean(states[k], acts[k]);
      }
    } else {
      var k := FirstUnclean(states, acts, |acts|);
      RunInv(states, acts, k);
      SoundIffClean(states[k], acts[k]);
    }
  }

  lemma {:induction false} FirstUnclean(states: seq<State>, acts: seq<Act>, n: nat) returns (k: nat)
    requires IsRun(states, acts) && n <= |acts| && !CleanTo(states, acts, n)
    ensures k < n && !Clean(states[k], acts[k]) && CleanTo(states, acts, k)
  {
    hide Do, Ready, Clean, Init;
    if CleanTo(states, acts, n - 1) { k := n - 1; } else { k := FirstUnclean(states, acts, n - 1); }
  }

  // ---- closed sockets -----------------------------------------------------------------------------

  /** The socket of allocation `w` is closed: its slot is free, stores another identifier, or is
      being reserved anew. */
  predicate Gone(s: State, w: nat)
    requires |s.slots| == SLOTS
  {
    s.slots[Home(w)].kind == Invalid || s.slots[Home(w)].born != w || Home(w) in s.marked
  }

  /** A closed socket stays closed. */
  lemma StepGone(s: State, a: Act, w: nat)
    requires Inv(s) && Ready(s, a) && Fresh(s, a) && Clean(s, a) && w in s.issued && Gone(s, w)
    ensures |Do(s, a).slots| == SLOTS && w in Do(s, a).issued && Gone(Do(s, a), w)
  {
    hide IdOf, Created, Ordered, Promised, NoLeak, AllNewest, HashId;
    match a {
      case Ctrl(env) => CtrlGone(s, env, w);
      case Serve(env, n) => ServeGone(s, env, n, w);
      case _ => assert forall i :: i in s.marked ==> s.marked[i] != w;
    }
  }

  lemma CtrlGone(s: State, env: Env, w: nat)
    requires Inv(s) && Ready(s, Ctrl(env)) && Fresh(s, Ctrl(env)) && Clean(s, Ctrl(env)) && w in s.issued && Gone(s, w)
    ensures var t := CtrlState(s, env); |t.slots| == SLOTS && w in t.issued && Gone(t, w)
  {
    hide IdOf, Created, Ordered, Promised, NoLeak, AllNewest, HashId, SlotsOk, Numbers, MarkedOk, EventsOk, Home;
    Turn(s);
  }

  lemma ServeGone(s: State, env: Env, n: nat, w: nat)
    requires Inv(s) && Ready(s, Serve(env, n)) && w in s.issued && Gone(s, w)
    ensures var t := ServeState(s, env, n); |t.slots| == SLOTS && w in t.issued && Gone(t, w)
  {
    hide IdOf, Created, Ordered, Promised, NoLeak, AllNewest, HashId, SlotsOk, MarkedOk, Home;
    var e := s.ev[s.index];
    if e.at != -1 {
      assert Awaits(s, s.index);
      EventsAlive(s, s.index);
    }
  }

  lemma {:induction false} RunGone(states: seq<State>, acts: seq<Act>, i: nat, j: nat, w: nat)
    requires IsRun(states, acts) && FreshRun(states, acts) && i <= j <= |acts| && CleanTo(states, acts, j)
    requires w in states[i].issued && Gone(states[i], w)
    ensures w in states[j].issued && Gone(states[j], w)
  {
    hide Inv, Do, Ready, Fresh, Clean, Init, Gone;
    if i < j {
      RunGone(states, acts, i, j - 1, w);
      RunInv(states, acts, j - 1);
      StepGone(states[j - 1], acts[j - 1], w);
    }
  }

  /** In every run without an open window: whatever event is served at step j belongs to a socket
      that was not closed at any step i before. */
  lemma NoEventAfterClose(states: seq<State>, acts: seq<Act>, i: nat, j: nat)
    requires IsRun(states, acts) && FreshRun(states, acts) && i <= j < |acts| && CleanTo(states, acts, j)
    requires acts[j].Serve? && states[j].ev[states[j].index].at != -1
    ensures var w := states[j].ev[states[j].index].who; w in states[i].issued ==> !Gone(states[i], w)
  {
    hide Do, Init, Fresh, Clean;
    var e := states[j].ev[states[j].index];
    RunInv(states, acts, j);
    assert Awaits(states[j], states[j].index);
    EventsAlive(states[j], states[j].index);
    AliveNotGone(states[j], e);
    if e.who in states[i].issued && Gone(states[i], e.who) { RunGone(states, acts, i, j, e.who); }
  }

  lemma AliveNotGone(s: State, e: Event)
    requires Inv(s) && 0 <= e.at < SLOTS && Alive(s, e)
    ensures !Gone(s, e.who)
  {
    hide IdOf, Created, Ordered, Promised, NoLeak, AllNewest, HashId, Home, EventsOk;
    assert SlotOk(s.slots[e.at], e.at, s);
  }

  // ---- what the windows are -----------------------------------------------------------------------

  /** A reservation disturbs a waiting event only between the close of its socket and the
      clearing of that socket's events. */
  lemma EventWindow(s: State, n: nat)
    requires Inv(s) && Ready(s, Mark(n)) && !Clean(s, Mark(n))
    ensures s.pc == Clearing(s.slots[Home(n)].id)
  {
    hide Core, Home;
    var k :| Awaits(s, k) && s.ev[k].at == Home(n);
  }

  /** A close or send request reaches a reserved slot exactly between the marking of the slot and
      the storing of the new identifier, and only if it is for the slot's last socket. */
  lemma RequestWindow(s: State, env: Env)
    requires Inv(s) && Ready(s, Ctrl(env)) && Fresh(s, Ctrl(env))
    ensures var r := s.pipe[0];
      !Clean(s, Ctrl(env)) <==> (r.cmd == DoClose || r.cmd == DoSend) && Home(r.who) in s.marked && s.slots[Home(r.who)].born == r.who
  {
    hide IdOf, Created, Promised, NoLeak, HashId, Home, EventsOk, FreeOk;
    Turn(s);
    var r := s.pipe[0];
    HitsExact(s, r.who);
  }

  /** Step j marks the slot of allocation n, and the poll thread stays between its two frees of
      that slot up to state k. */
  ghost predicate MarkedBetween(states: seq<State>, acts: seq<Act>, j: nat, k: nat, n: nat)
    requires |states| == |acts| + 1
  {
    && j < k <= |acts| && acts[j].Mark? && Home(acts[j].n) == Home(n)
    && forall i :: j <= i <= k ==> states[i].pc == Freeing(n)
  }

  /** The second freeing finds the slot taken exactly if the slot was marked since the first. */
  lemma FreeWindow(states: seq<State>, acts: seq<Act>, k: nat)
    requires IsRun(states, acts) && FreshRun(states, acts) && k <= |acts| && CleanTo(states, acts, k)
    requires states[k].pc.Freeing?
    ensures states[k].slots[Home(states[k].pc.n)].kind != Invalid <==> exists j :: MarkedBetween(states, acts, j, k, states[k].pc.n)
  {
    hide FreshRun, CleanTo, MarkedBetween, Home, Ready, Do, Init;
    if states[k].slots[Home(states[k].pc.n)].kind != Invalid { var j := FreeWindowOpens(states, acts, k); }
    if j :| MarkedBetween(states, acts, j, k, states[k].pc.n) { MarkedStays(states, acts, j, k, states[k].pc.n); }
  }

  lemma {:induction false} FreeWindowOpens(states: seq<State>, acts: seq<Act>, k: nat) returns (j: nat)
    requires IsRun(states, acts) && FreshRun(states, acts) && k <= |acts| && CleanTo(states, acts, k)
    requires states[k].pc.Freeing? && states[k].slots[Home(states[k].pc.n)].kind != Invalid
    ensures MarkedBetween(states, acts, j, k, states[k].pc.n)
  {
    hide Inv, Init, Fresh, Clean, Home;
    if k > 0 {
      RunInv(states, acts, k - 1);
      FreeingBack(states[k - 1], acts[k - 1], states[k]);
      if acts[k - 1].Mark? && Home(acts[k - 1].n) == Home(states[k].pc.n) {
        j := k - 1;
      } else {
        j := FreeWindowOpens(states, acts, k - 1);
      }
    } else {
      NotFreeing();
    }
  }

  lemma NotFreeing()
    ensures !Init().pc.Freeing?
  { }

  /** A slot marked under the poll thread stays taken until the second free. */
  lemma {:induction false} MarkedStays(states: seq<State>, acts: seq<Act>, j: nat, k: nat, n: nat)
    requires IsRun(states, acts) && MarkedBetween(states, acts, j, k, n)
    ensures states[k].slots[Home(n)].kind != Invalid
    decreases k
  {
    hide Init, Home, Do, Ready;
    if j + 1 == k {
      MarkTakes(states[j], acts[j].n);
    } else {
      assert states[k - 1].pc == Freeing(n) && states[k].pc == Freeing(n);
      MarkedStays(states, acts, j, k - 1, n);
      TakenStays(states[k - 1], acts[k - 1], n);
    }
  }

  lemma MarkTakes(s: State, m: nat)
    requires |s.slots| == SLOTS && Ready(s, Mark(m))
    ensures Do(s, Mark(m)).slots[Home(m)].kind == Reserve
  {
    hide Home, IdOf;
  }

  lemma TakenStays(s: State, a: Act, n: nat)
    requires |s.slots| == SLOTS && Ready(s, a) && s.pc == Freeing(n) && Do(s, a).pc == s.pc && s.slots[Home(n)].kind != Invalid
    ensures |Do(s, a).slots| == SLOTS && Do(s, a).slots[Home(n)].kind != Invalid
  {
    hide Home, IdOf;
  }

  lemma FreeingBack(s: State, a: Act, t: State)
    requires Inv(s) && Ready(s, a) && t == Do(s, a) && Fresh(s, a) && Clean(s, a)
    requires |t.slots| == SLOTS && t.pc.Freeing? && t.slots[Home(t.pc.n)].kind != Invalid
    ensures s.pc == t.pc
    ensures (a.Mark? && Home(a.n) == Home(s.pc.n)) || s.slots[Home(s.pc.n)].kind != Invalid
  {
    hide IdOf, Created, Promised, NoLeak, HashId, Home, EventsOk, Ordered, AllNewest;
    if a.Ctrl? { Turn(s); }
  }

  // ---- runs that fail ---------------------------------------------------------------------------

  /** The last state of a run. */
  ghost function Last(states: seq<State>): State
    requires states != []
  {
    states[|states| - 1]
  }

  ghost predicate GoodRun(states: seq<State>, acts: seq<Act>) {
    IsRun(states, acts) && FreshRun(states, acts) && CleanTo(states, acts, |acts|)
  }

  lemma Extend(states: seq<State>, acts: seq<Act>, a: Act) returns (states': seq<State>, acts': seq<Act>)
    requires GoodRun(states, acts) && Ready(Last(states), a) && Fresh(Last(states), a)
    ensures Inv(Last(states)) && |Do(Last(states), a).slots| == SLOTS
    ensures states' == states + [Do(Last(states), a)] && acts' == acts + [a]
    ensures IsRun(states', acts') && FreshRun(states', acts') && CleanTo(states', acts', |acts|)
    ensures Clean(Last(states), a) ==> GoodRun(states', acts') && Inv(Last(states'))
  {
    hide Inv, Do, Ready, Fresh, Clean, Init;
    RunInv(states, acts, |acts|);
    var s := Last(states);
    DoLength(s, a);
    states', acts' := states + [Do(s, a)], acts + [a];
    assert forall k :: 0 <= k < |acts'| ==> acts'[k] == (if k < |acts| then acts[k] else a);
    if Clean(s, a) { StepKeeps(s, a); }
  }

  lemma DoLength(s: State, a: Act)
    requires |s.slots| == SLOTS && Ready(s, a)
    ensures |Do(s, a).slots| == SLOTS
  { }

  const FAIL: Env := Env(false, Fail, 0)
  const FINE: Env := Env(false, Fine, 0)
  const ADD_FAILS: Env := Env(true, Wait, 0)

  /** Nothing is under way, except that numbers may have been drawn. */
  predicate Calm(s: State) { s.pc == Idle && s.pipe == [] && s.marked == map[] && s.unsent == {} }

  /** reserve_id and the creating request of an open, for allocation n. */
  function Reserved(s: State, n: nat): State
    requires |s.slots| == SLOTS
  {
    s.(slots := s.slots[Home(n) := Slot(Reserve, IdOf(n), n, 0)], drawn := s.drawn - {n}, issued := s.issued + {n},
       pipe := [Request(DoOpen, IdOf(n), n)])
  }

  lemma ReservedSteps(s: State, n: nat)
    requires |s.slots| == SLOTS && Calm(s) && n in s.drawn && s.slots[Home(n)].kind == Invalid && s.slots[Home(n)].pending == 0
    ensures Ready(s, Mark(n))
    ensures var s1 := Do(s, Mark(n)); |s1.slots| == SLOTS && Ready(s1, Store(Home(n)))
    ensures var s2 := Do(Do(s, Mark(n)), Store(Home(n))); |s2.slots| == SLOTS && Ready(s2, Publish(n, DoOpen))
    ensures Do(Do(Do(s, Mark(n)), Store(Home(n))), Publish(n, DoOpen)) == Reserved(s, n)
  {
    hide IdOf, HashId;
    var i := Home(n);
    var s1 := Do(s, Mark(n));
    assert s1.marked == map[i := n];
    var s2 := Do(s1, Store(i));
    assert s2.slots == s.slots[i := Slot(Reserve, IdOf(n), n, 0)];
    assert s2.marked == map[] && s2.unsent == {n};
    var s3 := Do(s2, Publish(n, DoOpen));
    assert s3.unsent == {} && s3.listeners == s.listeners && s3.pipe == [Request(DoOpen, IdOf(n), n)];
  }

  lemma FreeNoEvents(s: State, n: nat)
    requires Inv(s) && s.pc == Idle && s.slots[Home(n)].kind == Invalid
    ensures forall k :: Awaits(s, k) ==> s.ev[k].at != Home(n)
    ensures s.slots[Home(n)].pending == 0
  {
    hide IdOf, Home, Created, Promised, NoLeak, Ordered, Numbers, AllNewest, MarkedOk;
    assert SlotOk(s.slots[Home(n)], Home(n), s);
  }

  /** A thread reserves the slot of a number it drew and asks for an open. */
  lemma Reserves(states: seq<State>, acts: seq<Act>, n: nat) returns (states': seq<State>, acts': seq<Act>)
    requires GoodRun(states, acts) && Calm(Last(states)) && n in Last(states).drawn
    requires Last(states).slots[Home(n)].kind == Invalid && Last(states).allocs < n + IDS
    ensures GoodRun(states', acts') && Last(states') == Reserved(Last(states), n)
  {
    hide Inv, Do, Init, IdOf, HashId, Reserved, Home;
    var s := Last(states);
    RunInv(states, acts, |acts|);
    FreeNoEvents(s, n);
    ReservedSteps(s, n);
    states', acts' := Extend(states, acts, Mark(n));
    states', acts' := Extend(states', acts', Store(Home(n)));
    states', acts' := Extend(states', acts', Publish(n, DoOpen));
  }

  /** The open of allocation n succeeds, or fails and its slot is free again. */
  function Opened(s: State, n: nat): State
    requires |s.slots| == SLOTS
  {
    s.(slots := s.slots[Home(n) := Slot(Connected, IdOf(n), n, 0)], drawn := s.drawn - {n}, issued := s.issued + {n})
  }

  function Refused(s: State, n: nat): State
    requires |s.slots| == SLOTS
  {
    s.(slots := s.slots[Home(n) := Slot(Invalid, IdOf(n), n, 0)], drawn := s.drawn - {n}, issued := s.issued + {n})
  }

  lemma OpenStep(s: State, n: nat)
    requires |s.slots| == SLOTS && Calm(s) && s.allocs < n + IDS
    ensures var r := Reserved(s, n);
      && Ready(r, Ctrl(FINE)) && Ready(r, Ctrl(FAIL)) && Ready(r, Ctrl(ADD_FAILS))
      && Fresh(r, Ctrl(FINE)) && Fresh(r, Ctrl(FAIL)) && Fresh(r, Ctrl(ADD_FAILS)) && CtrlState(r, FINE) == Opened(s, n)
      && CtrlState(r, FAIL) == Refused(s, n).(pc := Clearing(IdOf(n)))
      && CtrlState(r, ADD_FAILS) == Refused(s, n).(pc := Freeing(n))
      && Clean(r, Ctrl(FINE)) && Clean(r, Ctrl(FAIL)) && Clean(r, Ctrl(ADD_FAILS))
  {
    HashHome(n);
    hide IdOf, HashId;
    var r, i := Reserved(s, n), Home(n);
    assert r.pipe[1..] == [];
    assert CtrlState(r, FINE).slots == Opened(s, n).slots;
    assert CtrlState(r, FAIL).slots == Refused(s, n).slots;
    assert CtrlState(r, ADD_FAILS).slots == Refused(s, n).slots;
  }

  /** With no event on a freed slot, clearing changes nothing. */
  lemma ClearIdle(s: State, id: nat)
    requires |s.slots| == SLOTS && forall k :: Awaits(s, k) ==> 0 <= s.ev[k].at < SLOTS && s.slots[s.ev[k].at].kind != Invalid
    ensures Cleared(s, id) == s.ev
  {
    forall k | 0 <= k < |s.ev| ensures Cleared(s, id)[k] == s.ev[k] {
      assert s.index <= k && s.ev[k].at != -1 ==> Awaits(s, k);
    }
  }

  lemma RefusedClears(s: State, n: nat)
    requires Inv(s) && Calm(s) && s.slots[Home(n)].kind == Invalid
    ensures var t := Refused(s, n).(pc := Clearing(IdOf(n)));
      |t.slots| == SLOTS && Ready(t, Clear) && Clean(t, Clear) && Do(t, Clear) == Refused(s, n)
  {
    hide IdOf, Home, Core;
    FreeNoEvents(s, n);
    var t := Refused(s, n).(pc := Clearing(IdOf(n)));
    forall k | Awaits(t, k) ensures 0 <= t.ev[k].at < SLOTS && t.slots[t.ev[k].at].kind != Invalid {
      assert Awaits(s, k);
      EventsAlive(s, k);
    }
    ClearIdle(t, IdOf(n));
  }

  /** Another thread opens a connection and fails: one number is used up. */
  lemma Cycle(states: seq<State>, acts: seq<Act>) returns (states': seq<State>, acts': seq<Act>)
    requires GoodRun(states, acts) && Calm(Last(states)) && Last(states).slots[Home(Last(states).allocs + 1)].kind == Invalid
    ensures GoodRun(states', acts')
    ensures var s := Last(states); Last(states') == Refused(s.(allocs := s.allocs + 1), s.allocs + 1)
  {
    hide Inv, Init, IdOf, HashId, Reserved, Home, Refused, Opened, CtrlState, Cleared;
    var s := Last(states);
    var n := s.allocs + 1;
    RunInv(states, acts, |acts|);
    NotDrawn(s);
    states', acts' := Extend(states, acts, Draw);
    var s1 := Last(states');
    states', acts' := Reserves(states', acts', n);
    OpenStep(s1, n);
    states', acts' := Extend(states', acts', Ctrl(FAIL));
    RefusedClears(s1, n);
    states', acts' := Extend(states', acts', Clear);
    SameRefused(s, n, s1);
  }

  lemma NotDrawn(s: State)
    requires Inv(s)
    ensures s.allocs + 1 !in s.drawn
  {
    hide IdOf, Home, Created, Promised, NoLeak, Ordered, AllNewest, MarkedOk, EventsOk, SlotsOk;
  }

  lemma SameRefused(s: State, n: nat, s1: State)
    requires |s.slots| == SLOTS && n !in s.drawn && s1 == s.(allocs := n, drawn := s.drawn + {n})
    ensures Refused(s1, n) == Refused(s.(allocs := n), n)
  {
    assert s.drawn + {n} - {n} == s.drawn - {n};
  }

  /** All slots but `keep` are free. */
  predicate Spare(s: State, keep: int)
    requires |s.slots| == SLOTS
  {
    forall i :: 0 <= i < SLOTS && i != keep ==> s.slots[i].kind == Invalid
  }

  /** What cycles leave alone. */
  predicate Kept(s: State, t: State, keep: int)
    requires |s.slots| == SLOTS && |t.slots| == SLOTS
  {
    && Calm(t) && Spare(t, keep) && t.ev == s.ev && t.index == s.index && t.drawn == s.drawn && s.issued <= t.issued
    && t.listeners == s.listeners
    && (0 <= keep < SLOTS ==> t.slots[keep] == s.slots[keep])
  }

  lemma {:induction false} Cycles(states: seq<State>, acts: seq<Act>, k: nat, keep: int)
    returns (states': seq<State>, acts': seq<Act>)
    requires GoodRun(states, acts) && Calm(Last(states)) && Spare(Last(states), keep)
    requires forall n :: Last(states).allocs < n <= Last(states).allocs + k ==> Home(n) != keep
    ensures GoodRun(states', acts') && Last(states').allocs == Last(states).allocs + k
    ensures Kept(Last(states), Last(states'), keep)
    decreases k
  {
    hide Inv, Init, IdOf, HashId, Home, Ready, Fresh, Clean;
    if k == 0 {
      states', acts' := states, acts;
    } else {
      states', acts' := Cycles(states, acts, k - 1, keep);
      var s, t := Last(states), Last(states');
      assert Home(s.allocs + k) != keep;
      RunInv(states', acts', |acts'|);
      NotDrawn(t);
      states', acts' := Cycle(states', acts');
    }
  }

  lemma Empty() returns (states: seq<State>, acts: seq<Act>)
    ensures GoodRun(states, acts) && Last(states) == Init()
  {
    states, acts := [Init()], [];
  }

  lemma Homes()
    ensures Home(1) == 1 && Home(SLOTS + 1) == 1
    ensures forall n :: 1 < n <= SLOTS ==> Home(n) != 1
  { }

  /** One connection on slot 1, and 65536 further numbers used up or drawn: the next reservation
      on slot 1 is for number 65537. */
  lemma Prepared() returns (states: seq<State>, acts: seq<Act>)
    ensures GoodRun(states, acts)
    ensures var s := Last(states);
      && Calm(s) && s.allocs == SLOTS + 1 && SLOTS + 1 in s.drawn && 1 in s.issued && 1 !in s.listeners
      && s.slots[1] == Slot(Connected, 1, 1, 0) && s.ev == [] && s.index == 0
  {
    hide Inv, IdOf, HashId, Home, CtrlState, Reserved;
    Homes();
    states, acts := Empty();
    states, acts := Extend(states, acts, Draw);
    var s := Last(states);
    OpenStep(s, 1);
    states, acts := Reserves(states, acts, 1);
    states, acts := Extend(states, acts, Ctrl(FINE));
    var t := Last(states);
    assert t == Opened(s, 1);
    IdOne();
    states, acts := Cycles(states, acts, SLOTS - 1, 1);
    states, acts := Extend(states, acts, Draw);
  }

  lemma IdOne()
    ensures IdOf(1) == 1 && HashId(1) == 1
  { }

  const BROKEN: Event := Event(1, true, true, 1)

  /** First window, between a close and the clearing of events: the peer of connection 1 hangs up
      while its event also has the write flag, the event is put back, another thread reserves the
      slot, and the event is left for the next socket. */
  lemma EventWindowFails() returns (states: seq<State>, acts: seq<Act>)
    ensures IsRun(states, acts) && FreshRun(states, acts) && |acts| > 0 && CleanTo(states, acts, |acts| - 1)
    ensures acts[|acts| - 1] == Mark(SLOTS + 1) && !Sound(states[|acts| - 1], acts[|acts| - 1])
    ensures var s, t := states[|acts| - 1], Last(states);
      && s.pc == Clearing(1) && s.slots[1].kind == Invalid
      && t.slots[1].kind == Reserve && t.marked == map[1 := SLOTS + 1] && Awaits(t, 0) && t.ev[0].at == 1 && t.ev[0].who == 1
      && Cleared(t, 1)[0].at == 1
  {
    hide Inv, IdOf, HashId, Home, CtrlState, Sound;
    Homes();
    states, acts := Prepared();
    states, acts := Extend(states, acts, Poll([BROKEN]));
    states, acts := Extend(states, acts, Serve(FAIL, 0));
    var s := Last(states);
    assert s.ev == [BROKEN.(read := false)] && s.index == 0 && s.pc == Clearing(1);
    RunInv(states, acts, |acts|);
    assert Awaits(s, 0);
    var acts0 := acts;
    states, acts := Extend(states, acts, Mark(SLOTS + 1));
    SoundIffClean(s, Mark(SLOTS + 1));
  }

  /** Second window, between marking a slot and storing its identifier: connection 1 is closed
      twice, and the second close comes when another thread is reserving its slot. */
  lemma RequestWindowFails() returns (states: seq<State>, acts: seq<Act>)
    ensures IsRun(states, acts) && FreshRun(states, acts) && |acts| > 0 && CleanTo(states, acts, |acts| - 1)
    ensures acts[|acts| - 1].Ctrl? && !Asserts(states[|acts| - 1], acts[|acts| - 1])
    ensures var s := states[|acts| - 1];
      s.pipe[0] == Request(DoClose, 1, 1) && s.marked == map[1 := SLOTS + 1] && s.slots[1].kind == Reserve && s.slots[1].id == 1
  {
    hide Inv, IdOf, Home;
    Homes();
    IdOne();
    states, acts := ClosedOnce();
    var s := Last(states);
    RunInv(states, acts, |acts|);
    FreeNoEvents(s, SLOTS + 1);
    states, acts := Extend(states, acts, Mark(SLOTS + 1));
    states, acts := Extend(states, acts, Ctrl(FINE));
  }

  /** Connection 1 is closed and a second close request for it is in the pipe. */
  lemma ClosedOnce() returns (states: seq<State>, acts: seq<Act>)
    ensures GoodRun(states, acts)
    ensures var s := Last(states);
      && s.pc == Idle && s.pipe == [Request(DoClose, 1, 1)] && s.marked == map[] && s.allocs == SLOTS + 1 && SLOTS + 1 in s.drawn
      && s.slots[1] == Slot(Invalid, 1, 1, 0)
  {
    hide Inv, IdOf, Home;
    Homes();
    IdOne();
    states, acts := Prepared();
    var r := Request(DoClose, 1, 1);
    states, acts := Extend(states, acts, Ask(r));
    states, acts := Extend(states, acts, Ask(r));
    assert Last(states).pipe == [r, r];
    states, acts := Extend(states, acts, Ctrl(FINE));
    assert Last(states).pipe == [r];
    states, acts := Extend(states, acts, Clear);
  }

  /** Third window, between the two frees: the add of allocation 1 fails, another thread reserves
      the slot, and the second free takes it away; the creation of that reservation is then the
      owner of a slot that is not reserved. */
  lemma FreeWindowFails() returns (states: seq<State>, acts: seq<Act>)
    ensures IsRun(states, acts) && FreshRun(states, acts) && |acts| > 0 && CleanTo(states, acts, |acts| - 1)
    ensures acts[|acts| - 1] == FreeAgain && !Intact(Last(states))
    ensures var t := Last(states); t.marked == map[1 := SLOTS + 1] && t.slots[1].kind == Invalid
  {
    hide Inv, IdOf, HashId, Home, CtrlState, Reserved, Clean;
    Homes();
    states, acts := FreedOnce();
    var s := Last(states);
    FreedMark(s);
    states, acts := Extend(states, acts, Mark(SLOTS + 1));
    states, acts := Extend(states, acts, FreeAgain);
    var t := Last(states);
    assert 1 in t.marked;
  }

  lemma FreedMark(s: State)
    requires |s.slots| == SLOTS && s.pc == Freeing(1) && s.ev == [] && s.allocs == SLOTS + 1 && SLOTS + 1 in s.drawn
    requires s.slots[1].kind == Invalid
    ensures Ready(s, Mark(SLOTS + 1)) && Fresh(s, Mark(SLOTS + 1)) && Clean(s, Mark(SLOTS + 1))
  {
    Homes();
    NoEvents(s);
  }

  /** Allocation 1 has failed to be added and freed its slot once; number 65537 is drawn. */
  lemma FreedOnce() returns (states: seq<State>, acts: seq<Act>)
    ensures GoodRun(states, acts)
    ensures var s := Last(states);
      && s.pc == Freeing(1) && s.ev == [] && s.allocs == SLOTS + 1 && SLOTS + 1 in s.drawn
      && s.slots[1].kind == Invalid && s.marked == map[]
  {
    hide Inv, IdOf, HashId, Home, CtrlState, Reserved;
    Homes();
    states, acts := Empty();
    states, acts := Extend(states, acts, Draw);
    states, acts := Cycles(states, acts, SLOTS - 1, 1);
    states, acts := Extend(states, acts, Draw);
    var s := Last(states);
    OpenStep(s, 1);
    states, acts := Reserves(states, acts, 1);
    states, acts := Extend(states, acts, Ctrl(ADD_FAILS));
    assert Last(states) == Refused(s, 1).(pc := Freeing(1));
  }

  lemma NoEvents(s: State)
    requires s.ev == []
    ensures forall k :: !Awaits(s, k)
  { }

  /** After 2^31 allocations a stale identifier does reach another socket: the socket of allocation
      1 is closed, allocation 2^31 + 1 is connected on its slot, and a late close request for the
      former closes the latter. */
  lemma StaleIdReached() returns (states: seq<State>, acts: seq<Act>)
    ensures IsRun(states, acts) && |acts| > 0 && CleanTo(states, acts, |acts|) && acts[|acts| - 1] == Ctrl(FINE)
    ensures var s, t := states[|acts| - 1], Last(states);
      && s.pipe == [Request(DoClose, IdOf(1), 1)] && 1 in s.issued && Gone(s, 1) && Hits(s, IdOf(1))
      && s.slots[1] == Slot(Connected, 1, IDS + 1, 0) && t.slots[1] == Slot(Invalid, 1, IDS + 1, 0)
  {
    hide Inv, IdOf, HashId, Home, CtrlState, Init, Clean;
    IdOne();
    states, acts := LateOpened();
    var s := Last(states);
    var r := Request(DoClose, IdOf(1), 1);
    AskLate(s);
    states, acts := Extend(states, acts, Ask(r));
    var s' := Last(states);
    LateClose(s');
    states, acts := states + [Do(s', Ctrl(FINE))], acts + [Ctrl(FINE)];
    assert forall k :: 0 <= k < |acts| - 1 ==> Ready(states[k], acts[k]) && states[k + 1] == Do(states[k], acts[k]);
  }

  lemma AskLate(s: State)
    requires |s.slots| == SLOTS && 1 in s.issued && s.unsent == {}
    ensures Ready(s, Ask(Request(DoClose, IdOf(1), 1))) && Fresh(s, Ask(Request(DoClose, IdOf(1), 1)))
    ensures Clean(s, Ask(Request(DoClose, IdOf(1), 1)))
  { }

  lemma LateClose(s: State)
    requires |s.slots| == SLOTS && s.pc == Idle && s.pipe == [Request(DoClose, IdOf(1), 1)]
    requires s.slots[1] == Slot(Connected, 1, IDS + 1, 0)
    ensures Ready(s, Ctrl(FINE)) && Clean(s, Ctrl(FINE)) && Hits(s, IdOf(1)) && Gone(s, 1)
    ensures var t := Do(s, Ctrl(FINE)); |t.slots| == SLOTS && t.slots[1] == Slot(Invalid, 1, IDS + 1, 0)
  {
    IdOne();
    Homes();
  }

  /** Slot 1 was used by allocation 1, and 2^31 allocations later it is connected again. */
  lemma LateOpened() returns (states: seq<State>, acts: seq<Act>)
    ensures GoodRun(states, acts)
    ensures var s := Last(states); Calm(s) && 1 in s.issued && s.slots[1] == Slot(Connected, 1, IDS + 1, 0)
  {
    hide Inv, IdOf, HashId, Home, CtrlState, Reserved;
    Homes();
    LateHome();
    states, acts := Empty();
    states, acts := Cycle(states, acts);
    states, acts := Cycles(states, acts, IDS - 1, -1);
    states, acts := Extend(states, acts, Draw);
    var s := Last(states);
    OpenStep(s, IDS + 1);
    states, acts := Reserves(states, acts, IDS + 1);
    states, acts := Extend(states, acts, Ctrl(FINE));
    assert Last(states) == Opened(s, IDS + 1);
  }

  lemma LateHome()
    ensures Home(IDS + 1) == 1 && IdOf(IDS + 1) == 1
  { }
}
