/**
  * The slot table of the socket server (network/socket/socket_server.c) as a machine: other
  * threads reserve slots and write requests to the control pipe, the poll thread carries out
  * requests and serves events. A step is one access to a slot that another thread may observe.
  *
  * `who`, `born` and the sets number the allocations without wrap-around. The code never reads
  * them; they only let the model say which socket an identifier was issued for.
  */
module SocketSlots {
  import opened Ring

  const SLOTS: nat := 0x1_0000
  const IDS: nat := 0x8000_0000

  datatype Kind = Invalid | Reserve | PListen | Listen | Connecting | Connected | HalfClose | PAccept | Bind

  /** `born` is the allocation whose identifier the slot stores, 0 if none yet. */
  datatype Slot = Slot(kind: Kind, id: nat, born: nat, pending: nat)

  datatype Cmd = DoOpen | DoListen | DoBind | DoStart | DoClose | DoSend
  datatype Request = Request(cmd: Cmd, id: nat, who: nat)

  /** An event of the current batch; `at` is the slot, -1 once the pointer is cleared. */
  datatype Event = Event(at: int, read: bool, write: bool, who: nat)

  /** How a system call turned out: done, would block, or failed. */
  datatype Fate = Fine | Wait | Fail

  /** The environment's part of one step: whether adding to the poller fails, how the call
      itself turned out, and how many buffers are left after writing. */
  datatype Env = Env(addFails: bool, fate: Fate, left: nat)

  /** Where the poll thread is: between two commands or events, about to free a slot a second
      time after a failed add, or about to clear the events of a closed socket. */
  datatype Pc = Idle | Freeing(n: nat) | Clearing(id: nat)

  /** `drawn`: numbers taken from alloc_id by threads still looking at their slot. `marked`: slots
      reserved by the allocation named, whose identifier is not stored yet. `unsent`: stored
      reservations whose creating request is not in the pipe yet. `issued`: every allocation that
      got a slot. `listeners`: those used for listening. */
  datatype State = State(slots: seq<Slot>, allocs: nat, drawn: set<nat>, marked: map<nat, nat>, unsent: set<nat>,
                         issued: set<nat>, listeners: set<nat>, pipe: seq<Request>, ev: seq<Event>, index: nat, pc: Pc)

  datatype Act =
    | Draw | Miss(n: nat) | Mark(n: nat) | Store(i: nat) | Publish(w: nat, cmd: Cmd) | Ask(r: Request)
    | Ctrl(env: Env) | FreeAgain | Clear | Poll(batch: seq<Event>) | Serve(env: Env, n: nat)

  // ---- identifiers ----------------------------------------------------------------------

  function IdOf(n: nat): nat { n % IDS }

  function HashId(id: nat): (i: nat)
    ensures i < SLOTS
  { id % SLOTS }

  /** The slot of an allocation number. */
  function Home(n: nat): (i: nat)
    ensures i < SLOTS
  { HashId(n) }

  /** The identifier of an allocation hashes to that allocation's slot. */
  lemma HashHome(n: nat)
    ensures HashId(IdOf(n)) == Home(n)
  {
    var q, r := n / IDS, n % IDS;
    var q2, r2 := r / SLOTS, r % SLOTS;
    assert n == SLOTS * (0x8000 * q + q2) + r2;
    DivUnique(n, SLOTS, 0x8000 * q + q2, r2);
  }

  /** Equal identifiers are a multiple of 2^31 allocations apart, and share the slot. */
  lemma SameId(a: nat, b: nat)
    requires IdOf(a) == IdOf(b)
    ensures a < b ==> b >= a + IDS
    ensures Home(a) == Home(b)
  {
    HashHome(a);
    HashHome(b);
    var qa, qb := a / IDS, b / IDS;
    assert b - a == IDS * (qb - qa);
  }

  // ---- what the operations do to a slot -------------------------------------------------------

  predicate Quiet(k: Kind) { k == Invalid || k == Reserve || k == PListen || k == Listen || k == PAccept }

  predicate Listening(k: Kind) { k == PListen || k == Listen }

  /** Kinds whose descriptor is registered with the poller. */
  predicate Registered(k: Kind) { k == Listen || k == Connecting || k == Connected || k == HalfClose || k == Bind }

  predicate Creates(r: Request) { r.cmd == DoOpen || r.cmd == DoListen || r.cmd == DoBind }

  /** Buffers left after writing. */
  function Left(pending: nat, env: Env): nat {
    if env.fate == Fine then 0 else if env.left < pending then env.left else pending
  }

  /** Buffers queued after a send request: none is added for a closing or unstarted socket, or
      if the direct write took everything. */
  function Queued(x: Slot, env: Env): nat {
    if x.kind == HalfClose || x.kind == PAccept then x.pending
    else if x.kind == Connected && x.pending == 0 && env.fate == Fine then 0
    else x.pending + 1
  }

  function StartedKind(kind: Kind, addFails: bool): Kind {
    if kind != PAccept && kind != PListen then kind
    else if addFails then Invalid
    else if kind == PAccept then Connected else Listen
  }

  function As(x: Slot, kind: Kind, pending: nat): Slot { x.(kind := kind, pending := pending) }

  /** The slot after the control command that reached it, given what the system did. */
  function Handled(cmd: Cmd, x: Slot, env: Env): Slot {
    match cmd
    case DoOpen => As(x, if env.fate == Fail || env.addFails then Invalid else if env.fate == Fine then Connected else Connecting, 0)
    case DoListen => As(x, PListen, 0)
    case DoBind => As(x, if env.addFails then Invalid else Bind, 0)
    case DoStart => As(x, StartedKind(x.kind, env.addFails), x.pending)
    case DoClose =>
      if x.pending > 0 && env.fate == Wait && env.left > 0 then As(x, HalfClose, Left(x.pending, env)) else As(x, Invalid, 0)
    case DoSend =>
      if x.kind == Connected && x.pending == 0 && env.fate == Fail then As(x, Invalid, 0) else As(x, x.kind, Queued(x, env))
  }

  /** The slot after one of its events. */
  function Served(x: Slot, e: Event, env: Env): Slot {
    if x.kind == Connecting then (if env.fate == Fail then As(x, Invalid, 0) else As(x, Connected, x.pending))
    else if x.kind == Listen || x.kind == Invalid then x
    else if e.read then (if env.fate == Fail then As(x, Invalid, 0) else x)
    else if e.write then
      if env.fate == Fail || (env.fate == Fine && x.kind == HalfClose) then As(x, Invalid, 0) else As(x, x.kind, Left(x.pending, env))
    else x
  }

  /** Whether an event goes through the default branch of the poll loop. */
  predicate Ordinary(k: Kind) { k != Connecting && k != Listen && k != Invalid }

  // ---- steps ------------------------------------------------------------------------------------

  /** The live slot a request with identifier `id` reaches. */
  predicate Hits(s: State, id: nat)
    requires |s.slots| == SLOTS
  {
    s.slots[HashId(id)].kind != Invalid && s.slots[HashId(id)].id == id
  }

  /** A request for an identifier that its owner may know. */
  predicate MayAsk(s: State, r: Request) {
    !Creates(r) && r.who in s.issued && r.who !in s.unsent && r.id == IdOf(r.who)
    && (r.cmd == DoSend ==> r.who !in s.listeners)
  }

  /** Event k is still to be served and its pointer not cleared. */
  predicate Awaits(s: State, k: int) { s.index <= k < |s.ev| && s.ev[k].at != -1 }

  /** The poller reports at most one event per socket, for registered sockets only. */
  predicate LegalBatch(s: State, batch: seq<Event>)
    requires |s.slots| == SLOTS
  {
    && (forall k :: 0 <= k < |batch| && batch[k].at != -1 ==> 0 <= batch[k].at < SLOTS && Alive(s, batch[k]))
    && (forall j, k :: 0 <= j < k < |batch| && batch[j].at != -1 ==> batch[j].at != batch[k].at)
  }

  /** The socket the event was raised for is in its slot and registered. */
  predicate Alive(s: State, e: Event)
    requires |s.slots| == SLOTS && 0 <= e.at < SLOTS
  {
    Registered(s.slots[e.at].kind) && s.slots[e.at].born == e.who
  }

  predicate Ready(s: State, a: Act)
    requires |s.slots| == SLOTS
  {
    match a
    case Draw => true
    case Miss(n) => n in s.drawn && s.slots[Home(n)].kind != Invalid
    case Mark(n) => n in s.drawn && s.slots[Home(n)].kind == Invalid
    case Store(i) => i in s.marked && i < SLOTS
    case Publish(w, cmd) => w in s.unsent && Creates(Request(cmd, IdOf(w), w))
    case Ask(r) => MayAsk(s, r)
    case Ctrl(_) => s.pc == Idle && s.pipe != []
    case FreeAgain => s.pc.Freeing?
    case Clear => s.pc.Clearing?
    case Poll(batch) => s.pc == Idle && s.index == |s.ev| && LegalBatch(s, batch)
    case Serve(env, n) =>
      && s.pc == Idle && s.index < |s.ev| && -1 <= s.ev[s.index].at < SLOTS
      && (n > 0 ==> s.ev[s.index].at != -1 && s.slots[s.ev[s.index].at].kind == Listen && env.fate != Fail
                    && n in s.drawn && s.slots[Home(n)].kind == Invalid)
  }

  function SetSlot(s: State, i: nat, x: Slot): State
    requires i < |s.slots|
  {
    s.(slots := s.slots[i := x])
  }

  /** ctrl_cmd up to clear_closed_event. A failed add frees the slot in new_fd and once more in
      open_socket; the other failures and closes go straight to the clearing of events. */
  function CtrlState(s: State, env: Env): State
    requires |s.slots| == SLOTS && s.pipe != []
  {
    var r, t := s.pipe[0], s.(pipe := s.pipe[1..]);
    var h := HashId(r.id);
    if !Creates(r) && !Hits(s, r.id) then t.(pc := if r.cmd == DoSend then Idle else Clearing(r.id))
    else
      var x := Handled(r.cmd, s.slots[h], env);
      SetSlot(t, h, x).(pc := if x.kind != Invalid then Idle
                              else if r.cmd == DoOpen && env.fate != Fail then Freeing(r.who) else Clearing(r.id))
  }

  predicate Stale(s: State, e: Event, id: nat)
    requires |s.slots| == SLOTS
  {
    0 <= e.at < SLOTS && s.slots[e.at].kind == Invalid && s.slots[e.at].id == id
  }

  /** clear_closed_event. */
  function Cleared(s: State, id: nat): (ev: seq<Event>)
    requires |s.slots| == SLOTS
    ensures |ev| == |s.ev|
  {
    seq(|s.ev|, k requires 0 <= k < |s.ev| => if s.index <= k && Stale(s, s.ev[k], id) then s.ev[k].(at := -1) else s.ev[k])
  }

  /** One event of socket_server_poll up to clear_closed_event; with the write flag set, the
      event stays for a second turn after its read half. An accept takes number `n`. */
  function ServeState(s: State, env: Env, n: nat): State
    requires |s.slots| == SLOTS && s.index < |s.ev| && -1 <= s.ev[s.index].at < SLOTS
  {
    var k, e := s.index, s.ev[s.index];
    var t := s.(index := k + 1);
    if e.at == -1 then t
    else
      var x := s.slots[e.at];
      if x.kind == Listen then (if n == 0 then t else
        SetSlot(t, Home(n), Slot(PAccept, IdOf(n), n, 0)).(drawn := s.drawn - {n}, issued := s.issued + {n}))
      else
        var y := Served(x, e, env);
        var u := if Ordinary(x.kind) && e.read && e.write then t.(index := k, ev := s.ev[k := e.(read := false)]) else t;
        SetSlot(u, e.at, y).(pc := if Ordinary(x.kind) && y.kind == Invalid then Clearing(x.id) else Idle)
  }

  function Do(s: State, a: Act): State
    requires |s.slots| == SLOTS && Ready(s, a)
  {
    match a
    case Draw => s.(allocs := s.allocs + 1, drawn := s.drawn + {s.allocs + 1})
    case Miss(n) => s.(drawn := s.drawn - {n})
    case Mark(n) =>
      SetSlot(s, Home(n), s.slots[Home(n)].(kind := Reserve)).(drawn := s.drawn - {n}, marked := s.marked[Home(n) := n])
    case Store(i) =>
      var n := s.marked[i];
      SetSlot(s, i, s.slots[i].(id := IdOf(n), born := n))
        .(marked := s.marked - {i}, unsent := s.unsent + {n}, issued := s.issued + {n})
    case Publish(w, cmd) =>
      s.(unsent := s.unsent - {w}, pipe := s.pipe + [Request(cmd, IdOf(w), w)],
         listeners := s.listeners + (if cmd == DoListen then {w} else {}))
    case Ask(r) => s.(pipe := s.pipe + [r])
    case Ctrl(env) => CtrlState(s, env)
    case FreeAgain =>
      SetSlot(s, Home(s.pc.n), s.slots[Home(s.pc.n)].(kind := Invalid)).(pc := Clearing(IdOf(s.pc.n)))
    case Clear => s.(ev := Cleared(s, s.pc.id), pc := Idle)
    case Poll(batch) => s.(ev := batch, index := 0)
    case Serve(env, n) => ServeState(s, env, n)
  }

  // ---- what holds between steps ---------------------------------------------------------

  function Created(pipe: seq<Request>): set<nat> {
    set k | 0 <= k < |pipe| && Creates(pipe[k]) :: pipe[k].who
  }

  /** Creations still to be carried out. */
  function Owed(s: State): set<nat> { s.unsent + Created(s.pipe) }

  predicate SlotOk(x: Slot, i: nat, s: State) {
    && (x.born > 0 ==> x.born in s.issued && x.id == IdOf(x.born) && Home(x.born) == i)
    && (x.born == 0 ==> x.kind == Invalid || i in s.marked)
    && (Quiet(x.kind) ==> x.pending == 0)
    && (Listening(x.kind) ==> x.born in s.listeners)
  }

  predicate SlotsOk(s: State) {
    |s.slots| == SLOTS && forall i :: 0 <= i < SLOTS ==> SlotOk(s.slots[i], i, s)
  }

  /** A slot marked but not stored is reserved, by a number that got no slot before, and no
      outstanding creation counts on it. */
  predicate MarkedOk(s: State)
    requires |s.slots| == SLOTS
  {
    forall i :: i in s.marked ==>
      && i < SLOTS && s.slots[i].kind == Reserve && Home(s.marked[i]) == i
      && 0 < s.marked[i] <= s.allocs && s.marked[i] !in s.issued && s.slots[i].born !in Owed(s)
  }

  /** The slot of allocation `w` is reserved by it. */
  predicate Held(s: State, w: nat)
    requires |s.slots| == SLOTS
  {
    s.slots[Home(w)].kind == Reserve && s.slots[Home(w)].born == w
  }

  /** Every outstanding creation still owns its reserved slot, and owns it alone. */
  predicate Promised(s: State)
    requires |s.slots| == SLOTS
  {
    && (forall w :: w in Owed(s) ==> Held(s, w))
    && (forall w :: w in Created(s.pipe) ==> w !in s.unsent)
    && (forall j, k :: 0 <= j < k < |s.pipe| && Creates(s.pipe[j]) && Creates(s.pipe[k]) ==> s.pipe[j].who != s.pipe[k].who)
  }

  /** No reserved slot is forgotten. */
  predicate NoLeak(s: State)
    requires |s.slots| == SLOTS
  {
    forall i :: 0 <= i < SLOTS && i !in s.marked && s.slots[i].kind == Reserve ==> s.slots[i].born in Owed(s)
  }

  /** Requests come after the creation they refer to. */
  predicate Ordered(s: State) {
    forall k :: 0 <= k < |s.pipe| ==>
      && s.pipe[k].who in s.issued
      && s.pipe[k].who !in s.unsent
      && s.pipe[k].id == IdOf(s.pipe[k].who)
      && (!Creates(s.pipe[k]) ==> s.pipe[k].who !in Created(s.pipe[k..]))
      && (s.pipe[k].cmd == DoListen ==> s.pipe[k].who in s.listeners)
      && (s.pipe[k].cmd == DoSend ==> s.pipe[k].who !in s.listeners)
  }

  /** Numbers drawn or issued are fresh and each is in one place. */
  predicate Numbers(s: State) {
    && s.unsent <= s.issued
    && (forall w :: w in s.issued ==> 1 <= w <= s.allocs)
    && (forall n :: n in s.drawn ==> 1 <= n <= s.allocs && n !in s.issued && n !in s.marked.Values)
  }

  /** No later allocation with the identifier of `n` was issued. */
  predicate Newest(s: State, n: nat) { forall w :: w in s.issued && IdOf(w) == IdOf(n) ==> w <= n }

  predicate AllNewest(s: State)
    requires |s.slots| == SLOTS
  {
    && (forall i :: 0 <= i < SLOTS ==> Newest(s, s.slots[i].born) || s.slots[i].born == 0)
    && (forall i :: i in s.marked ==> Newest(s, s.marked[i]))
    && (forall w :: w in s.issued ==> s.slots[Home(w)].born > 0)
  }

  /** Every event still to be served belongs to the socket in its slot, or is about to be
      cleared; no two of them share a slot. */
  ghost predicate EventsOk(s: State)
    requires |s.slots| == SLOTS
  {
    && s.index <= |s.ev|
    && (forall k :: Awaits(s, k) ==> 0 <= s.ev[k].at < SLOTS && (Alive(s, s.ev[k]) || Closing(s, s.ev[k])))
    && (forall j, k :: s.index <= j < k < |s.ev| && s.ev[j].at != -1 ==> s.ev[j].at != s.ev[k].at)
  }

  predicate Closing(s: State, e: Event)
    requires |s.slots| == SLOTS && 0 <= e.at < SLOTS
  {
    s.pc.Clearing? && s.slots[e.at].kind == Invalid && s.slots[e.at].id == s.pc.id && s.slots[e.at].born == e.who
  }

  /** A slot freed once is free, or reserved again. */
  predicate FreeOk(s: State)
    requires |s.slots| == SLOTS
  {
    s.pc.Freeing? ==> s.slots[Home(s.pc.n)].kind == Invalid || s.slots[Home(s.pc.n)].kind == Reserve
  }

  predicate Core(s: State) {
    |s.slots| == SLOTS && SlotsOk(s) && MarkedOk(s) && Promised(s) && NoLeak(s) && Ordered(s) && Numbers(s) && AllNewest(s)
  }

  ghost predicate Inv(s: State) { |s.slots| == SLOTS && Core(s) && EventsOk(s) && FreeOk(s) }

  // ---- soundness of a step, and the windows -------------------------------------------------

  /** The assertions of new_fd, force_close and send_socket hold in this step. */
  predicate Asserts(s: State, a: Act)
    requires |s.slots| == SLOTS && Ready(s, a)
  {
    match a
    case Ctrl(env) =>
      var r := s.pipe[0];
      var x := s.slots[HashId(r.id)];
      if Creates(r) then (r.cmd == DoOpen && env.fate == Fail) || (x.kind == Reserve && x.pending == 0)
      else Hits(s, r.id) ==> (r.cmd == DoClose ==> x.kind != Reserve) && (r.cmd == DoSend ==> !Listening(x.kind))
    case Serve(env, n) =>
      var e := s.ev[s.index];
      e.at != -1 && Served(s.slots[e.at], e, env).kind == Invalid ==> s.slots[e.at].kind != Reserve
    case _ => true
  }

  /** An event is handed to the socket it was raised for. */
  predicate Right(s: State, a: Act)
    requires |s.slots| == SLOTS && Ready(s, a)
  {
    a.Serve? && s.ev[s.index].at != -1 ==> Alive(s, s.ev[s.index])
  }

  /** Reservations keep their slots, reserved slots have empty lists, events their sockets. */
  ghost predicate Intact(s: State)
    requires |s.slots| == SLOTS
  {
    && (forall w :: w in Owed(s) ==> Held(s, w))
    && (forall i :: i in s.marked ==> i < SLOTS && s.slots[i].kind == Reserve)
    && (forall i :: 0 <= i < SLOTS && s.slots[i].kind == Reserve ==> s.slots[i].pending == 0)
    && EventsOk(s)
  }

  ghost predicate Sound(s: State, a: Act)
    requires |s.slots| == SLOTS && Ready(s, a)
  {
    Asserts(s, a) && Right(s, a) && Intact(Do(s, a))
  }

  /** The three windows stay shut: no slot is reserved while an event of its last socket waits,
      no close or send request reaches a slot that is being reserved, no slot is freed a second
      time after it was reserved again. */
  ghost predicate Clean(s: State, a: Act)
    requires |s.slots| == SLOTS && Ready(s, a)
  {
    match a
    case Mark(n) => forall k :: Awaits(s, k) ==> s.ev[k].at != Home(n)
    case Ctrl(_) =>
      var r := s.pipe[0];
      (r.cmd == DoClose || r.cmd == DoSend) && Hits(s, r.id) ==> s.slots[HashId(r.id)].kind != Reserve
    case FreeAgain => s.slots[Home(s.pc.n)].kind == Invalid
    case _ => true
  }

  /** No number in play is 2^31 allocations old. */
  predicate Fresh(s: State, a: Act)
    requires |s.slots| == SLOTS && Ready(s, a)
  {
    match a
    case Mark(n) => s.allocs < n + IDS
    case Ctrl(_) => s.allocs < s.pipe[0].who + IDS
    case Serve(_, n) => n > 0 ==> s.allocs < n + IDS
    case _ => true
  }

  // ---- identifiers name one socket ---------------------------------------------------------

  /** Two live slots never carry the same identifier, and each identifier finds its slot. */
  lemma LiveIds(s: State, i: nat, j: nat)
    requires SlotsOk(s) && i < SLOTS && j < SLOTS && i !in s.marked && j !in s.marked
    requires s.slots[i].kind != Invalid && s.slots[j].kind != Invalid
    ensures HashId(s.slots[i].id) == i
    ensures s.slots[i].id == s.slots[j].id ==> i == j
  {
    hide HashId, Home, IdOf;
    assert SlotOk(s.slots[i], i, s) && SlotOk(s.slots[j], j, s);
    HashHome(s.slots[i].born);
    HashHome(s.slots[j].born);
  }

  /** A request reaches the slot that stores the identifier it was issued for: of the same
      allocation, or of one at least 2^31 allocations later. */
  lemma HitsExact(s: State, w: nat)
    requires SlotsOk(s) && AllNewest(s) && Numbers(s) && w in s.issued
    ensures HashId(IdOf(w)) == Home(w)
    ensures s.slots[Home(w)].kind != Invalid && s.slots[Home(w)].born == w ==> Hits(s, IdOf(w))
    ensures Hits(s, IdOf(w)) ==> s.slots[Home(w)].born == w || s.slots[Home(w)].born >= w + IDS
    ensures Hits(s, IdOf(w)) && s.allocs < w + IDS ==> s.slots[Home(w)].born == w
  {
    hide HashId, Home, IdOf;
    HashHome(w);
    var x := s.slots[Home(w)];
    assert SlotOk(x, Home(w), s);
    assert Newest(s, x.born) || x.born == 0;
    if Hits(s, IdOf(w)) && x.born != w { SameId(w, x.born); }
  }
}
