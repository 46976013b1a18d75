/**
  * The socket server of network/socket/socket_server.c as one object. Each method is what a
  * thread does in one or more steps of the machine in SocketSlots; the code's assertions are
  * preconditions. What the operating system answers is a parameter.
  */
module SocketServers {
  import opened SocketSlots
  import opened SocketPoll
  import opened SocketRuns
  import opened Ring

  /** What the poll loop returns to its caller. */
  datatype Report = Nothing | Opened | Accepted | Data | Closed | Failed

  lemma IdNext(n: nat)
    ensures IdOf(n + 1) == if IdOf(n) == IDS - 1 then 0 else IdOf(n) + 1
  {
    if IdOf(n) == IDS - 1 {
      DivUnique(n + 1, IDS, n / IDS + 1, 0);
    } else {
      DivUnique(n + 1, IDS, n / IDS, n % IDS + 1);
    }
  }

  /** Any run of 65536 allocations tries every slot. */
  lemma TriesAll(a: nat, i: nat) returns (m: nat)
    requires i < SLOTS
    ensures 1 <= m <= SLOTS && Home(a + m) == i
  {
    var q, r := a / SLOTS, a % SLOTS;
    m := if r < i then i - r else i + SLOTS - r;
    DivUnique(a + m, SLOTS, if r < i then q else q + 1, i);
  }

  predicate Full(slots: seq<Slot>) { forall i :: 0 <= i < |slots| ==> slots[i].kind != Invalid }

  lemma AllTried(slots: seq<Slot>, a: nat)
    requires |slots| == SLOTS && forall n :: a < n <= a + SLOTS ==> slots[Home(n)].kind != Invalid
    ensures Full(slots)
  {
    hide Home;
    forall i | 0 <= i < SLOTS ensures slots[i].kind != Invalid {
      var m := TriesAll(a, i);
      assert slots[Home(a + m)].kind != Invalid;
    }
  }

  class SocketServer {
    var slot: seq<Slot>
    var allocId: int
    var ev: seq<Event>
    var eventIndex: nat
    var pipe: seq<Request>
    // History, and where the poll thread is: no operation decides anything by it.
    var allocs: nat
    var drawn: set<nat>
    var marked: map<nat, nat>
    var unsent: set<nat>
    var issued: set<nat>
    var listeners: set<nat>
    var pc: Pc

    function Value(): State
      reads this
    {
      State(slot, allocs, drawn, marked, unsent, issued, listeners, pipe, ev, eventIndex, pc)
    }

    predicate Valid()
      reads this
    {
      |slot| == SLOTS && allocId == IdOf(allocs)
    }

    constructor ()
      ensures Valid() && Value() == Init()
    {
      slot := seq(SLOTS, i => Slot(Invalid, 0, 0, 0));
      allocId, ev, eventIndex, pipe, pc := 0, [], 0, [], Idle;
      allocs, drawn, marked, unsent, issued, listeners := 0, {}, map[], {}, {}, {};
    }

    // ---- other threads ----------------------------------------------------------------

    /** The atomic increment of alloc_id; a sum past the signed range is brought back to 0. */
    method NextId() returns (id: nat)
      requires Valid()
      modifies `allocId, `allocs, `drawn
      ensures Valid() && Value() == Do(old(Value()), Draw) && id == IdOf(allocs) && HashId(id) == Home(allocs)
    {
      IdNext(allocs);
      HashHome(allocs + 1);
      hide IdOf, HashId, Home;
      var n := if allocId == 0x7fff_ffff then -0x8000_0000 else allocId + 1;
      if n < 0 { n := n + 0x8000_0000; }
      allocId, allocs := n, allocs + 1;
      drawn := drawn + {allocs};
      id := n;
    }

    /** The compare-and-swap on the kind of the slot of number n. */
    method CompareAndSwap(n: nat, id: nat) returns (ok: bool)
      requires Valid() && n in drawn && HashId(id) == Home(n)
      modifies `slot, `drawn, `marked
      ensures Valid() && (ok <==> old(slot)[Home(n)].kind == Invalid)
      ensures Value() == Do(old(Value()), if ok then Mark(n) else Miss(n))
    {
      hide IdOf, HashId, Home;
      var h := HashId(id);
      ok := slot[h].kind == Invalid;
      drawn := drawn - {n};
      if ok {
        slot := slot[h := slot[h].(kind := Reserve)];
        marked := marked[h := n];
      }
    }

    /** The identifier is stored in the slot. */
    method StoreId(n: nat, id: nat)
      requires Valid() && id == IdOf(n) && HashId(id) == Home(n) && Home(n) in marked && marked[Home(n)] == n
      modifies `slot, `marked, `unsent, `issued
      ensures Valid() && Value() == Do(old(Value()), Store(Home(n)))
    {
      hide IdOf, HashId, Home;
      var h := HashId(id);
      slot := slot[h := slot[h].(id := id, born := n)];
      marked, unsent, issued := marked - {h}, unsent + {n}, issued + {n};
    }

    /** One turn of the loop in reserve_id. */
    method TryNext() returns (ok: bool, id: nat)
      requires Valid()
      modifies `slot, `allocId, `allocs, `drawn, `marked, `unsent, `issued
      ensures Valid() && allocs == old(allocs) + 1 && id == IdOf(allocs) && (ok <==> old(slot)[Home(allocs)].kind == Invalid)
      ensures !ok ==> slot == old(slot) && unsent == old(unsent) && issued == old(issued)
      ensures ok ==> slot == old(slot)[Home(allocs) := old(slot)[Home(allocs)].(kind := Reserve, id := id, born := allocs)]
      ensures ok ==> unsent == old(unsent) + {allocs} && issued == old(issued) + {allocs}
    {
      hide IdOf, HashId, Home;
      id := NextId();
      ok := CompareAndSwap(allocs, id);
      if ok { StoreId(allocs, id); }
    }

    /** reserve_id, undisturbed: the first free slot in the order of identifiers is claimed; it
        fails exactly if every slot is taken. */
    method ReserveId() returns (id: int)
      requires Valid()
      modifies `slot, `allocId, `allocs, `drawn, `marked, `unsent, `issued
      ensures Valid() && (id == -1 <==> Full(old(slot)))
      ensures forall n :: old(allocs) < n < allocs ==> old(slot)[Home(n)].kind != Invalid
      ensures id == -1 ==> slot == old(slot) && unsent == old(unsent) && issued == old(issued) && allocs == old(allocs) + SLOTS
      ensures id != -1 ==> old(allocs) < allocs && id == IdOf(allocs) && old(slot)[Home(allocs)].kind == Invalid
      ensures id != -1 ==> slot == old(slot)[Home(allocs) := old(slot)[Home(allocs)].(kind := Reserve, id := id, born := allocs)]
      ensures id != -1 ==> unsent == old(unsent) + {allocs} && issued == old(issued) + {allocs}
    {
      hide IdOf, HashId, Home;
      ghost var a, before := allocs, slot;
      for i := 0 to SLOTS
        invariant Valid() && allocs == a + i && slot == before && unsent == old(unsent) && issued == old(issued)
        invariant forall n :: a < n <= allocs ==> before[Home(n)].kind != Invalid
      {
        var ok, n := TryNext();
        if ok { return n; }
      }
      AllTried(before, a);
      id := -1;
    }

    /** The creating request of a reservation is written to the pipe. */
    method SendCreate(w: nat, cmd: Cmd)
      requires Valid() && Ready(Value(), Publish(w, cmd))
      modifies `pipe, `unsent, `listeners
      ensures Valid() && Value() == Do(old(Value()), Publish(w, cmd))
    {
      hide IdOf;
      pipe, unsent := pipe + [Request(cmd, IdOf(w), w)], unsent - {w};
      listeners := listeners + if cmd == DoListen then {w} else {};
    }

    /** Any other request is written to the pipe. */
    method SendRequest(r: Request)
      requires Valid() && Ready(Value(), Ask(r))
      modifies `pipe
      ensures Valid() && Value() == Do(old(Value()), Ask(r))
    {
      pipe := pipe + [r];
    }

    // ---- slot operations ------------------------------------------------------------------

    /** new_fd; the precondition is what it asserts. */
    method NewFd(id: nat, add: bool, env: Env) returns (ok: bool)
      requires |slot| == SLOTS
      requires slot[HashId(id)].kind == Reserve && slot[HashId(id)].pending == 0
      modifies `slot
      ensures ok <==> !(add && env.addFails)
      ensures slot == old(slot)[HashId(id) := if ok then old(slot)[HashId(id)].(id := id) else old(slot)[HashId(id)].(kind := Invalid)]
    {
      var h := HashId(id);
      if add && env.addFails {
        slot := slot[h := slot[h].(kind := Invalid)];
        return false;
      }
      slot := slot[h := slot[h].(id := id)];
      return true;
    }

    /** force_close; the precondition is what it asserts. */
    method ForceClose(h: nat)
      requires h < |slot| && slot[h].kind != Reserve
      modifies `slot
      ensures slot == if old(slot)[h].kind == Invalid then old(slot) else old(slot)[h := As(old(slot)[h], Invalid, 0)]
    {
      if slot[h].kind == Invalid { return; }
      slot := slot[h := slot[h].(kind := Invalid, pending := 0)];
    }

    method SetKind(h: nat, kind: Kind)
      requires h < |slot|
      modifies `slot
      ensures slot == old(slot)[h := old(slot)[h].(kind := kind)]
    {
      slot := slot[h := slot[h].(kind := kind)];
    }

    // ---- control commands -----------------------------------------------------------------

    /** open_socket up to the free in new_fd, or to its end; `again` if a second free follows. */
    method OpenSocket(r: Request, env: Env) returns (rep: Report, again: bool)
      requires |slot| == SLOTS && r.cmd == DoOpen && slot[HashId(r.id)].id == r.id && slot[HashId(r.id)].pending == 0
      requires env.fate != Fail ==> slot[HashId(r.id)].kind == Reserve
      modifies `slot
      ensures slot == old(slot)[HashId(r.id) := Handled(DoOpen, old(slot)[HashId(r.id)], env)]
      ensures rep == match slot[HashId(r.id)].kind { case Invalid => Failed case Connected => Opened case _ => Nothing }
      ensures again <==> env.fate != Fail && env.addFails
    {
      hide HashId;
      var h := HashId(r.id);
      again := false;
      if env.fate == Fail {
        SetKind(h, Invalid);
        return Failed, false;
      }
      var ok := NewFd(r.id, true, env);
      if !ok {
        return Failed, true;
      } else if env.fate == Fine {
        SetKind(h, Connected);
        return Opened, false;
      } else {
        SetKind(h, Connecting);
        return Nothing, false;
      }
    }

    method ListenSocket(r: Request, env: Env) returns (rep: Report)
      requires |slot| == SLOTS && slot[HashId(r.id)].id == r.id
      requires slot[HashId(r.id)].kind == Reserve && slot[HashId(r.id)].pending == 0
      modifies `slot
      ensures slot == old(slot)[HashId(r.id) := Handled(DoListen, old(slot)[HashId(r.id)], env)] && rep == Nothing
    {
      hide HashId;
      var ok := NewFd(r.id, false, env);
      SetKind(HashId(r.id), PListen);
      rep := Nothing;
    }

    method BindSocket(r: Request, env: Env) returns (rep: Report)
      requires |slot| == SLOTS && slot[HashId(r.id)].id == r.id
      requires slot[HashId(r.id)].kind == Reserve && slot[HashId(r.id)].pending == 0
      modifies `slot
      ensures slot == old(slot)[HashId(r.id) := Handled(DoBind, old(slot)[HashId(r.id)], env)]
      ensures rep == if env.addFails then Failed else Opened
    {
      hide HashId;
      var ok := NewFd(r.id, true, env);
      if !ok { return Failed; }
      SetKind(HashId(r.id), Bind);
      rep := Opened;
    }

    method StartSocket(r: Request, env: Env) returns (rep: Report)
      requires |slot| == SLOTS
      modifies `slot
      ensures slot == if Hits(old(Value()), r.id) then old(slot)[HashId(r.id) := Handled(DoStart, old(slot)[HashId(r.id)], env)] else old(slot)
      ensures rep == Failed <==> !Hits(old(Value()), r.id) || slot[HashId(r.id)].kind == Invalid
      ensures rep == Failed || rep == Opened || rep == Nothing
    {
      hide HashId;
      var h := HashId(r.id);
      if slot[h].kind == Invalid || slot[h].id != r.id { return Failed; }
      if slot[h].kind == PAccept || slot[h].kind == PListen {
        if env.addFails {
          SetKind(h, Invalid);
          return Failed;
        }
        SetKind(h, if slot[h].kind == PAccept then Connected else Listen);
        return Opened;
      }
      return if slot[h].kind == Connected then Opened else Nothing;
    }

    /** send_buffer as seen by the slot: an error closes it, and so does finding both lists
        empty after a close request. */
    method SendBuffer(h: nat, env: Env) returns (rep: Report)
      requires h < |slot| && slot[h].kind != Invalid && slot[h].kind != Reserve
      modifies `slot
      ensures rep == if env.fate == Fail || (env.fate == Fine && old(slot)[h].kind == HalfClose) then Closed else Nothing
      ensures slot == old(slot)[h := if rep == Closed then As(old(slot)[h], Invalid, 0) else As(old(slot)[h], old(slot)[h].kind, Left(old(slot)[h].pending, env))]
    {
      if env.fate == Fail || (env.fate == Fine && slot[h].kind == HalfClose) {
        ForceClose(h);
        return Closed;
      }
      slot := slot[h := slot[h].(pending := Left(slot[h].pending, env))];
      return Nothing;
    }

    method CloseSocket(r: Request, env: Env) returns (rep: Report)
      requires |slot| == SLOTS && (Hits(Value(), r.id) ==> slot[HashId(r.id)].kind != Reserve)
      modifies `slot
      ensures slot == if Hits(old(Value()), r.id) then old(slot)[HashId(r.id) := Handled(DoClose, old(slot)[HashId(r.id)], env)] else old(slot)
      ensures rep == Closed <==> !Hits(old(Value()), r.id) || slot[HashId(r.id)].kind == Invalid
      ensures rep == Closed || rep == Nothing
    {
      hide HashId;
      var h := HashId(r.id);
      if slot[h].kind == Invalid || slot[h].id != r.id { return Closed; }
      if slot[h].pending != 0 {
        rep := SendBuffer(h, env);
        if rep != Nothing { return; }
      }
      if slot[h].pending == 0 {
        ForceClose(h);
        return Closed;
      }
      SetKind(h, HalfClose);
      return Nothing;
    }

    method SendSocket(r: Request, env: Env) returns (rep: Report)
      requires |slot| == SLOTS && (Hits(Value(), r.id) ==> slot[HashId(r.id)].kind != Reserve && !Listening(slot[HashId(r.id)].kind))
      modifies `slot
      ensures slot == if Hits(old(Value()), r.id) then old(slot)[HashId(r.id) := Handled(DoSend, old(slot)[HashId(r.id)], env)] else old(slot)
      ensures rep == if Hits(old(Value()), r.id) && slot[HashId(r.id)].kind == Invalid then Closed else Nothing
    {
      hide HashId;
      var h := HashId(r.id);
      if slot[h].kind == Invalid || slot[h].id != r.id || slot[h].kind == HalfClose || slot[h].kind == PAccept { return Nothing; }
      assert slot[h].kind != PListen && slot[h].kind != Listen;
      if slot[h].pending == 0 && slot[h].kind == Connected {
        if env.fate == Fail {
          ForceClose(h);
          return Closed;
        } else if env.fate == Wait {
          slot := slot[h := slot[h].(pending := 1)];
        }
      } else {
        slot := slot[h := slot[h].(pending := slot[h].pending + 1)];
      }
      return Nothing;
    }

    /** The switch of ctrl_cmd. */
    method Handle(r: Request, env: Env) returns (rep: Report, again: bool)
      requires |slot| == SLOTS && Due(Value(), r, env)
      modifies `slot
      ensures slot == if Creates(r) || Hits(old(Value()), r.id) then old(slot)[HashId(r.id) := Handled(r.cmd, old(slot)[HashId(r.id)], env)] else old(slot)
      ensures PcAfter(old(Value()), r, env) == if again then Freeing(r.who) else if rep == Closed || rep == Failed then Clearing(r.id) else Idle
      ensures again ==> rep == Failed
    {
      hide HashId;
      again := false;
      match r.cmd
      case DoOpen => rep, again := OpenSocket(r, env);
      case DoListen => rep := ListenSocket(r, env);
      case DoBind => rep := BindSocket(r, env);
      case DoStart => rep := StartSocket(r, env);
      case DoClose => rep := CloseSocket(r, env);
      case DoSend => rep := SendSocket(r, env);
    }

    /** ctrl_cmd: the next request of the pipe is carried out, up to the clearing of events. */
    method CtrlCmd(env: Env) returns (rep: Report)
      requires Valid() && Ready(Value(), Ctrl(env)) && Due(Value(), pipe[0], env)
      modifies `slot, `pipe, `pc
      ensures Valid() && Value() == Do(old(Value()), Ctrl(env))
      ensures rep == Closed || rep == Failed <==> pc != Idle
    {
      hide HashId, IdOf, Handled, PcAfter, Due;
      CtrlMeans(Value(), env);
      var r, again := pipe[0], false;
      SameDue(Value(), Value().(pipe := pipe[1..]), r, env);
      pipe := pipe[1..];
      rep, again := Handle(r, env);
      pc := if again then Freeing(r.who) else if rep == Closed || rep == Failed then Clearing(r.id) else Idle;
    }

    /** The second free in open_socket after a failed add. */
    method OpenFailed()
      requires Valid() && pc.Freeing?
      modifies `slot, `pc
      ensures Valid() && Value() == Do(old(Value()), FreeAgain)
    {
      SetKind(Home(pc.n), Invalid);
      pc := Clearing(IdOf(pc.n));
    }

    /** clear_closed_event: forgets the events of a closed socket. */
    method ClearClosedEvent(id: nat)
      requires Valid() && pc == Clearing(id) && eventIndex <= |ev|
      modifies `ev, `pc
      ensures Valid() && Value() == Do(old(Value()), Clear)
    {
      ghost var s := Value();
      for i := eventIndex to |ev|
        invariant |ev| == |s.ev| && pc == s.pc
        invariant forall k :: 0 <= k < i ==> ev[k] == Cleared(s, id)[k]
        invariant forall k :: i <= k < |ev| ==> ev[k] == s.ev[k]
      {
        var e := ev[i];
        if 0 <= e.at < SLOTS && slot[e.at].kind == Invalid && slot[e.at].id == id {
          ev := ev[i := e.(at := -1)];
        }
      }
      assert ev == Cleared(s, id);
      pc := Idle;
    }

    // ---- events -----------------------------------------------------------------------------

    /** report_connect. */
    method ReportConnect(h: nat, env: Env) returns (rep: Report)
      requires h < |slot| && slot[h].kind == Connecting
      modifies `slot
      ensures slot == old(slot)[h := Served(old(slot)[h], Event(h, true, true, 0), env)]
      ensures rep == if env.fate == Fail then Failed else Opened
    {
      if env.fate == Fail {
        ForceClose(h);
        return Failed;
      }
      SetKind(h, Connected);
      return Opened;
    }

    /** report_accept once reserve_id has got number n: new_fd finds the slot reserved. */
    method ReportAccept(n: nat, env: Env) returns (rep: Report)
      requires Valid() && n in drawn && slot[Home(n)].kind == Invalid && slot[Home(n)].pending == 0
      modifies `slot, `drawn, `issued
      ensures Valid() && slot == old(slot)[Home(n) := Slot(PAccept, IdOf(n), n, 0)]
      ensures drawn == old(drawn) - {n} && issued == old(issued) + {n} && rep == Accepted
    {
      HashHome(n);
      hide IdOf, HashId, Home;
      var h := Home(n);
      slot := slot[h := Slot(Reserve, IdOf(n), n, 0)];
      drawn, issued := drawn - {n}, issued + {n};
      var ok := NewFd(IdOf(n), false, env);
      SetKind(h, PAccept);
      rep := Accepted;
    }

    /** forward_message_tcp: end of file or an error closes the socket. */
    method ForwardMessage(h: nat, env: Env) returns (rep: Report)
      requires h < |slot| && (env.fate == Fail ==> slot[h].kind != Invalid && slot[h].kind != Reserve)
      modifies `slot
      ensures slot == if env.fate == Fail then old(slot)[h := As(old(slot)[h], Invalid, 0)] else old(slot)
      ensures rep == if env.fate == Fail then Closed else if env.fate == Wait || old(slot)[h].kind == HalfClose then Nothing else Data
    {
      if env.fate == Wait { return Nothing; }
      if env.fate == Fine { return if slot[h].kind == HalfClose then Nothing else Data; }
      ForceClose(h);
      return Closed;
    }

    /** The default branch of the poll loop: read first; with the write flag set the event stays
        for a second turn, and event_index goes back. */
    method ServeOrdinary(k: nat, h: nat, e: Event, env: Env) returns (rep: Report)
      requires h < |slot| && k < |ev| && eventIndex == k + 1 && slot[h].kind != Invalid && slot[h].kind != Reserve
      modifies `slot, `ev, `eventIndex
      ensures slot == old(slot)[h := if e.read || e.write then Turned(old(slot)[h], e, env) else old(slot)[h]]
      ensures eventIndex == (if e.read && e.write then k else k + 1)
      ensures ev == if e.read && e.write then old(ev)[k := e.(read := false)] else old(ev)
      ensures rep == Closed <==> slot[h].kind == Invalid
    {
      if e.read {
        rep := ForwardMessage(h, env);
        if e.write {
          ev, eventIndex := ev[k := e.(read := false)], k;
        }
        return;
      }
      if e.write {
        rep := SendBuffer(h, env);
        return;
      }
      return Nothing;
    }

    /** One event of socket_server_poll, up to the clearing of events. */
    method ServeEvent(env: Env, n: nat) returns (rep: Report)
      requires Valid() && Ready(Value(), Serve(env, n))
      requires ev[eventIndex].at != -1 ==> slot[ev[eventIndex].at].kind != Reserve
      requires n > 0 ==> slot[Home(n)].pending == 0
      modifies this
      ensures Valid() && Value() == Do(old(Value()), Serve(env, n))
    {
      hide IdOf, HashId, Home, Turned, ServeState, Served;
      ServeMeans(Value(), env, n);
      var k, e := eventIndex, ev[eventIndex];
      eventIndex := k + 1;
      if e.at == -1 { return Nothing; }
      var h: nat := e.at;
      var x := slot[h];
      if x.kind == Connecting {
        rep := ReportConnect(h, env);
      } else if x.kind == Listen {
        rep := Nothing;
        if n > 0 { rep := ReportAccept(n, env); }
      } else if x.kind == Invalid {
        rep := Nothing;
      } else {
        rep := ServeOrdinary(k, h, e, env);
        pc := if rep == Closed then Clearing(x.id) else Idle;
      }
    }
  }

  /** The assertions a control command meets hold, and it reaches no slot being reserved. */
  predicate Due(s: State, r: Request, env: Env)
    requires |s.slots| == SLOTS
  {
    var x := s.slots[HashId(r.id)];
    if Creates(r) then x.id == r.id && x.pending == 0 && x.kind == Reserve
    else Hits(s, r.id) ==> (r.cmd == DoClose || r.cmd == DoSend ==> x.kind != Reserve) && (r.cmd == DoSend ==> !Listening(x.kind))
  }

  function PcAfter(s: State, r: Request, env: Env): Pc
    requires |s.slots| == SLOTS
  {
    if !Creates(r) && !Hits(s, r.id) then (if r.cmd == DoSend then Idle else Clearing(r.id))
    else if Handled(r.cmd, s.slots[HashId(r.id)], env).kind != Invalid then Idle
    else if r.cmd == DoOpen && env.fate != Fail then Freeing(r.who) else Clearing(r.id)
  }

  lemma CtrlMeans(s: State, env: Env)
    requires |s.slots| == SLOTS && s.pipe != []
    ensures var r, t := s.pipe[0], CtrlState(s, env);
      && t == s.(pipe := s.pipe[1..], slots := t.slots, pc := PcAfter(s, r, env))
      && t.slots == if Creates(r) || Hits(s, r.id) then s.slots[HashId(r.id) := Handled(r.cmd, s.slots[HashId(r.id)], env)] else s.slots
  { }

  lemma SameDue(s: State, t: State, r: Request, env: Env)
    requires |s.slots| == SLOTS && t.slots == s.slots
    ensures Due(s, r, env) == Due(t, r, env) && PcAfter(s, r, env) == PcAfter(t, r, env) && Hits(s, r.id) == Hits(t, r.id)
  { }

  /** The slot after the read half, or after the write half. */
  function Turned(x: Slot, e: Event, env: Env): Slot {
    if e.read then (if env.fate == Fail then As(x, Invalid, 0) else x)
    else if env.fate == Fail || (env.fate == Fine && x.kind == HalfClose) then As(x, Invalid, 0)
    else As(x, x.kind, Left(x.pending, env))
  }

  lemma ServeMeans(s: State, env: Env, n: nat)
    requires |s.slots| == SLOTS && Ready(s, Serve(env, n))
    ensures var k, e, t := s.index, s.ev[s.index], ServeState(s, env, n);
      if e.at == -1 then t == s.(index := k + 1)
      else
        var x := s.slots[e.at];
        if x.kind == Listen then
          if n == 0 then t == s.(index := k + 1)
          else t == s.(index := k + 1, slots := s.slots[Home(n) := Slot(PAccept, IdOf(n), n, 0)], drawn := s.drawn - {n}, issued := s.issued + {n})
        else if x.kind == Connecting then t == s.(index := k + 1, slots := s.slots[e.at := Served(x, Event(e.at, true, true, 0), env)])
        else if x.kind == Invalid then t == s.(index := k + 1)
        else
          var y := if e.read || e.write then Turned(x, e, env) else x;
          t == s.(slots := s.slots[e.at := y], index := if e.read && e.write then k else k + 1,
                  ev := if e.read && e.write then s.ev[k := e.(read := false)] else s.ev,
                  pc := if y.kind == Invalid then Clearing(x.id) else Idle)
  {
    hide IdOf, HashId, Home, Turned, Served;
    var e := s.ev[s.index];
    if e.at != -1 {
      ServedTurned(s.slots[e.at], e, env);
      assert s.slots[e.at := s.slots[e.at]] == s.slots;
    }
  }

  lemma ServedTurned(x: Slot, e: Event, env: Env)
    ensures Ordinary(x.kind) ==> Served(x, e, env) == if e.read || e.write then Turned(x, e, env) else x
    ensures x.kind == Connecting ==> Served(x, e, env) == Served(x, Event(e.at, true, true, 0), env)
    ensures x.kind == Invalid ==> Served(x, e, env) == x
  { }

  /** In a run without an open window the assertions of each command and event hold. */
  lemma DueInTurn(s: State, env: Env)
    requires Inv(s) && Ready(s, Ctrl(env)) && Fresh(s, Ctrl(env)) && Clean(s, Ctrl(env))
    ensures Due(s, s.pipe[0], env)
  {
    hide IdOf, Created, Promised, NoLeak, HashId, Home, EventsOk, AllNewest, Numbers, MarkedOk;
    Turn(s);
    StepKeeps(s, Ctrl(env));
    var i := HashId(s.pipe[0].id);
    assert SlotOk(s.slots[i], i, s);
  }

  lemma ServeInTurn(s: State, env: Env, n: nat)
    requires Inv(s) && Ready(s, Serve(env, n))
    ensures s.ev[s.index].at != -1 ==> s.slots[s.ev[s.index].at].kind != Reserve
    ensures n > 0 ==> s.slots[Home(n)].pending == 0
    ensures s.index <= |s.ev|
  {
    hide IdOf, Created, Promised, NoLeak, HashId, Home, AllNewest, Numbers, MarkedOk, Ordered;
    if s.ev[s.index].at != -1 {
      assert Awaits(s, s.index);
      EventsAlive(s, s.index);
    }
    if n > 0 { FreeNoEvents(s, n); }
  }

  lemma IndexInBatch(s: State)
    requires Inv(s)
    ensures s.index <= |s.ev|
  { }

  lemma StoreMeans(s: State, i: nat)
    requires Inv(s) && Ready(s, Store(i))
    ensures Home(s.marked[i]) == i && HashId(IdOf(s.marked[i])) == i
  {
    HashHome(s.marked[i]);
  }

  /** One step of the server object. */
  method Perform(server: SocketServer, a: Act)
    requires server.Valid() && Inv(server.Value())
    requires Ready(server.Value(), a) && Fresh(server.Value(), a) && Clean(server.Value(), a)
    modifies server
    ensures server.Valid() && server.Value() == Do(old(server.Value()), a)
  {
    hide Inv, IdOf, HashId, Home, CtrlState, ServeState, Cleared, Due;
    ghost var s := server.Value();
    match a {
      case Draw =>
        var id := server.NextId();
      case Miss(n) =>
        HashHome(n);
        var ok := server.CompareAndSwap(n, IdOf(n));
      case Mark(n) =>
        HashHome(n);
        var ok := server.CompareAndSwap(n, IdOf(n));
      case Store(i) =>
        StoreMeans(s, i);
        server.StoreId(server.marked[i], IdOf(server.marked[i]));
      case Publish(w, cmd) => server.SendCreate(w, cmd);
      case Ask(r) => server.SendRequest(r);
      case Ctrl(env) =>
        DueInTurn(s, env);
        var rep := server.CtrlCmd(env);
      case FreeAgain => server.OpenFailed();
      case Clear =>
        IndexInBatch(s);
        server.ClearClosedEvent(server.pc.id);
      case Poll(batch) => server.ev, server.eventIndex := batch, 0;
      case Serve(env, n) =>
        ServeInTurn(s, env, n);
        var rep := server.ServeEvent(env, n);
    }
  }

  /** Any run without an open window is a run of the object, with all its assertions. */
  method RunServer(acts: seq<Act>, ghost states: seq<State>) returns (server: SocketServer)
    requires GoodRun(states, acts)
    ensures server.Valid() && server.Value() == Last(states)
  {
    hide Inv, Do, Ready, Fresh, Clean, Init;
    server := new SocketServer();
    for i := 0 to |acts|
      invariant fresh(server) && server.Valid() && server.Value() == states[i]
    {
      RunInv(states, acts, i);
      Perform(server, acts[i]);
    }
  }
}
