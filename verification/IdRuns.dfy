/** The counter (AllocIds) and the slot table (SocketSlots) together: threads carry the identifier
    the counter gave them to the slot it hashes to. As long as no two threads meet at the signed
    end, every joint run is a run of the slot table; a run in which they do reaches a stranger's
    socket within two allocations. */
module IdRuns {
  import opened Ring
  import A = AllocIds
  import opened SocketSlots
  import opened SocketRuns

  /** `base` allocations were made before the joint run began. */
  datatype Joint = Joint(base: nat, alloc: A.State, net: State)

  datatype Move = Count(a: A.Act) | Net(act: Act)

  /** The identifier of allocation n: what the counter gave out, in the joint run. */
  function IdNow(j: Joint, n: nat): nat {
    if j.base < n <= j.base + |j.alloc.ids| then j.alloc.ids[n - j.base - 1] else IdOf(n)
  }

  /** The allocation a step of the slot table is about; 0 if none. */
  function Subject(s: State, a: Act): nat {
    match a
    case Miss(n) => n
    case Mark(n) => n
    case Store(i) => if i in s.marked then s.marked[i] else 0
    case Publish(w, _) => w
    case Ask(r) => r.who
    case FreeAgain => if s.pc.Freeing? then s.pc.n else 0
    case Serve(_, n) => n
    case _ => 0
  }

  /** A step of the slot table by a thread that holds identifier `id`. */
  predicate ReadyAs(s: State, a: Act, id: nat)
    requires |s.slots| == SLOTS
  {
    match a
    case Draw => false
    case Miss(n) => n in s.drawn && s.slots[HashId(id)].kind != Invalid
    case Mark(n) => n in s.drawn && s.slots[HashId(id)].kind == Invalid
    case Ask(r) => !Creates(r) && r.who in s.issued && r.who !in s.unsent && r.id == id && (r.cmd == DoSend ==> r.who !in s.listeners)
    case Serve(env, n) =>
      && s.pc == Idle && s.index < |s.ev| && -1 <= s.ev[s.index].at < SLOTS
      && (n > 0 ==> s.ev[s.index].at != -1 && s.slots[s.ev[s.index].at].kind == Listen && env.fate != Fail
                    && n in s.drawn && s.slots[HashId(id)].kind == Invalid)
    case _ => Ready(s, a)
  }

  function DoAs(s: State, a: Act, id: nat): State
    requires |s.slots| == SLOTS && ReadyAs(s, a, id)
  {
    var i := HashId(id);
    match a
    case Draw => s
    case Ctrl(env) => CtrlState(s, env)
    case Clear => s.(ev := Cleared(s, s.pc.id), pc := Idle)
    case Poll(batch) => s.(ev := batch, index := 0)
    case Miss(n) => s.(drawn := s.drawn - {n})
    case Mark(n) => SetSlot(s, i, s.slots[i].(kind := Reserve)).(drawn := s.drawn - {n}, marked := s.marked[i := n])
    case Store(k) =>
      var n := s.marked[k];
      SetSlot(s, k, s.slots[k].(id := id, born := n)).(marked := s.marked - {k}, unsent := s.unsent + {n}, issued := s.issued + {n})
    case Publish(w, cmd) =>
      s.(unsent := s.unsent - {w}, pipe := s.pipe + [Request(cmd, id, w)],
         listeners := s.listeners + (if cmd == DoListen then {w} else {}))
    case Ask(r) => s.(pipe := s.pipe + [r])
    case FreeAgain => SetSlot(s, i, s.slots[i].(kind := Invalid)).(pc := Clearing(id))
    case Serve(env, n) =>
      if n == 0 then ServeState(s, env, 0)
      else SetSlot(s, i, Slot(PAccept, id, n, 0)).(index := s.index + 1, drawn := s.drawn - {n}, issued := s.issued + {n})
  }

  /** With the identifier of the allocation's own number it is the step of the slot table. */
  lemma OwnIdentifier(s: State, a: Act)
    requires |s.slots| == SLOTS && a != Draw
    ensures ReadyAs(s, a, IdOf(Subject(s, a))) <==> Ready(s, a)
    ensures Ready(s, a) ==> DoAs(s, a, IdOf(Subject(s, a))) == Do(s, a)
  {
    HashHome(Subject(s, a));
    hide IdOf, HashId;
  }

  predicate Enabled(j: Joint, m: Move)
    requires |j.net.slots| == SLOTS
  {
    match m
    case Count(a) => A.Ready(j.alloc, a)
    case Net(act) => ReadyAs(j.net, act, IdNow(j, Subject(j.net, act)))
  }

  function Next(j: Joint, m: Move): Joint
    requires |j.net.slots| == SLOTS && Enabled(j, m)
  {
    match m
    case Count(a) =>
      var c := A.Do(j.alloc, a);
      j.(alloc := c, net := if c.ids == j.alloc.ids then j.net else Do(j.net, Draw))
    case Net(act) => j.(net := DoAs(j.net, act, IdNow(j, Subject(j.net, act))))
  }

  ghost predicate JointRun(js: seq<Joint>, ms: seq<Move>) {
    && |js| == |ms| + 1 && js[0].alloc == A.State(IdOf(js[0].base), {}, []) && js[0].net.allocs == js[0].base
    && (forall i :: 0 <= i < |js| ==> |js[i].net.slots| == SLOTS)
    && forall i :: 0 <= i < |ms| ==> Enabled(js[i], ms[i]) && js[i + 1] == Next(js[i], ms[i])
  }

  // ---- threads that do not meet -------------------------------------------------------------

  /** No thread increments while another is between its two steps on the counter. */
  ghost predicate Alone(js: seq<Joint>, ms: seq<Move>) {
    |js| == |ms| + 1 && forall i :: 0 <= i < |ms| && ms[i].Count? && ms[i].a.Increment? ==> js[i].alloc.waiting == {}
  }

  /** Identifiers are those of the allocation numbers. */
  ghost predicate Numbered(j: Joint) {
    && A.Orderly(IdOf(j.base), j.alloc)
    && j.net.allocs == j.base + |j.alloc.ids|
    && forall k :: 0 <= k < |j.alloc.ids| ==> j.alloc.ids[k] == IdOf(j.base + k + 1)
  }

  lemma IdShift(base: nat, k: nat)
    ensures IdOf(IdOf(base) + k) == IdOf(base + k)
  {
    var q, r := base / IDS, base % IDS;
    var p, t := (r + k) / IDS, (r + k) % IDS;
    assert base + k == IDS * (q + p) + t;
    DivUnique(base + k, IDS, q + p, t);
  }

  lemma NumberedStep(j: Joint, m: Move)
    requires Numbered(j) && |j.net.slots| == SLOTS && Enabled(j, m)
    requires m.Count? && m.a.Increment? ==> j.alloc.waiting == {}
    ensures Numbered(Next(j, m))
  {
    hide IdOf, HashId;
    var r := Next(j, m);
    if m.Count? {
      OneMore(j.alloc, m.a);
      A.OrderlyStep(IdOf(j.base), j.alloc, m.a);
      forall k | 0 <= k < |r.alloc.ids| ensures r.alloc.ids[k] == IdOf(r.base + k + 1) {
        IdFits(IdOf(j.base), r.alloc.ids, k);
        IdShift(j.base, k + 1);
      }
    }
  }

  lemma OneMore(s: A.State, a: A.Act)
    requires A.Ready(s, a)
    ensures A.Do(s, a).ids == s.ids || |A.Do(s, a).ids| == |s.ids| + 1
  { }

  lemma IdFits(start: nat, ids: seq<nat>, k: nat)
    requires A.InSequence(start, ids) && k < |ids|
    ensures ids[k] == IdOf(start + (k + 1))
  { }

  lemma {:induction false} NumberedRun(js: seq<Joint>, ms: seq<Move>, n: nat)
    requires JointRun(js, ms) && Alone(js, ms) && n <= |ms|
    ensures Numbered(js[n])
  {
    hide Numbered, Enabled, Next, IdOf;
    if n == 0 {
      NumberedFirst(js[0]);
    } else {
      NumberedRun(js, ms, n - 1);
      NumberedStep(js[n - 1], ms[n - 1]);
    }
  }

  lemma NumberedFirst(j: Joint)
    requires j.alloc == A.State(IdOf(j.base), {}, []) && j.net.allocs == j.base
    ensures Numbered(j)
  { }

  /** What the slot table does in one joint step. */
  function Steps(j: Joint, m: Move): seq<Act>
    requires |j.net.slots| == SLOTS && Enabled(j, m)
  {
    match m
    case Count(a) => if A.Do(j.alloc, a).ids == j.alloc.ids then [] else [Draw]
    case Net(act) => [act]
  }

  /** The slot table gets from s to t by these steps. */
  predicate Leads(s: State, acts: seq<Act>, t: State)
    decreases |acts|
  {
    |s.slots| == SLOTS && if acts == [] then s == t else Ready(s, acts[0]) && Leads(Do(s, acts[0]), acts[1..], t)
  }

  lemma {:induction false} LeadsJoin(s: State, a: seq<Act>, t: State, b: seq<Act>, u: State)
    requires Leads(s, a, t) && Leads(t, b, u)
    ensures Leads(s, a + b, u)
    decreases |a|
  {
    hide Ready, Do;
    if a == [] {
      assert a + b == b;
    } else {
      assert (a + b)[0] == a[0] && (a + b)[1..] == a[1..] + b;
      LeadsJoin(Do(s, a[0]), a[1..], t, b, u);
    }
  }

  lemma OneStep(s: State, a: Act)
    requires |s.slots| == SLOTS && Ready(s, a) && |Do(s, a).slots| == SLOTS
    ensures Leads(s, [a], Do(s, a))
  {
    hide Do;
    assert Leads(Do(s, a), [], Do(s, a));
  }

  lemma StepLeads(j: Joint, m: Move)
    requires Numbered(j) && |j.net.slots| == SLOTS && Enabled(j, m) && |Next(j, m).net.slots| == SLOTS
    ensures Leads(j.net, Steps(j, m), Next(j, m).net)
  {
    hide IdOf, Leads, Do, Ready, ReadyAs, DoAs, Subject;
    match m
    case Count(a) => if A.Do(j.alloc, a).ids == j.alloc.ids { Nowhere(j.net); } else { DrawStep(j.net); }
    case Net(act) =>
      NotDraw(j.net, act, IdNow(j, Subject(j.net, act)));
      OwnIdentifier(j.net, act);
      OneStep(j.net, act);
  }

  lemma NotDraw(s: State, a: Act, id: nat)
    requires |s.slots| == SLOTS && ReadyAs(s, a, id)
    ensures a != Draw
  { }

  lemma DrawStep(s: State)
    requires |s.slots| == SLOTS
    ensures Ready(s, Draw) && Leads(s, [Draw], Do(s, Draw))
  {
    OneStep(s, Draw);
  }

  lemma Nowhere(s: State)
    requires |s.slots| == SLOTS
    ensures Leads(s, [], s)
  { }

  /** All steps of the slot table up to joint state n. */
  function AllSteps(js: seq<Joint>, ms: seq<Move>, n: nat): seq<Act>
    requires |js| == |ms| + 1 && n <= |ms|
    requires forall i :: 0 <= i < |ms| ==> |js[i].net.slots| == SLOTS && Enabled(js[i], ms[i])
  {
    if n == 0 then [] else AllSteps(js, ms, n - 1) + Steps(js[n - 1], ms[n - 1])
  }

  /** Every joint run in which no two threads meet at the counter is a run of the slot table. */
  lemma {:induction false} AloneIsMachine(js: seq<Joint>, ms: seq<Move>, n: nat)
    requires JointRun(js, ms) && Alone(js, ms) && n <= |ms|
    ensures Leads(js[0].net, AllSteps(js, ms, n), js[n].net)
  {
    hide Numbered, Enabled, Next, IdOf, Leads, Steps;
    if n == 0 {
      Nowhere(js[0].net);
    } else {
      AloneIsMachine(js, ms, n - 1);
      NumberedRun(js, ms, n - 1);
      assert js[n] == Next(js[n - 1], ms[n - 1]) && |js[n].net.slots| == SLOTS;
      StepLeads(js[n - 1], ms[n - 1]);
      LeadsJoin(js[0].net, AllSteps(js, ms, n - 1), js[n - 1].net, Steps(js[n - 1], ms[n - 1]), js[n].net);
    }
  }

  lemma {:induction false} LeadsRun(states: seq<State>, acts: seq<Act>, more: seq<Act>, t: State)
    returns (states': seq<State>, acts': seq<Act>)
    requires IsRun(states, acts) && Leads(Last(states), more, t)
    ensures IsRun(states', acts') && acts' == acts + more && Last(states') == t
    decreases |more|
  {
    hide Ready, Do, Init;
    states', acts' := states, acts;
    if more != [] {
      var s := Do(Last(states), more[0]);
      states', acts' := states + [s], acts + [more[0]];
      assert forall k :: 0 <= k < |acts'| ==> acts'[k] == (if k < |acts| then acts[k] else more[0]);
      assert IsRun(states', acts');
      states', acts' := LeadsRun(states', acts', more[1..], t);
      assert acts + [more[0]] + more[1..] == acts + more;
    }
  }

  /** So everything proved of the runs of the slot table holds of such joint runs. */
  lemma AloneReached(states: seq<State>, acts: seq<Act>, js: seq<Joint>, ms: seq<Move>, n: nat)
    returns (states': seq<State>, acts': seq<Act>)
    requires IsRun(states, acts) && JointRun(js, ms) && Alone(js, ms) && js[0].net == Last(states) && n <= |ms|
    ensures IsRun(states', acts') && acts' == acts + AllSteps(js, ms, n) && Last(states') == js[n].net
  {
    hide Ready, Do, Init, Enabled, Next, Leads, IdOf;
    AloneIsMachine(js, ms, n);
    states', acts' := LeadsRun(states, acts, AllSteps(js, ms, n), js[n].net);
  }

  // ---- threads that meet -----------------------------------------------------------------------

  /** One more move. */
  lemma More(js: seq<Joint>, ms: seq<Move>, m: Move) returns (js': seq<Joint>, ms': seq<Move>)
    requires JointRun(js, ms) && Enabled(js[|ms|], m) && |Next(js[|ms|], m).net.slots| == SLOTS
    ensures js' == js + [Next(js[|ms|], m)] && ms' == ms + [m] && JointRun(js', ms')
  {
    hide Enabled, Next, IdOf;
    js', ms' := js + [Next(js[|ms|], m)], ms + [m];
    assert forall i :: 0 <= i < |ms'| ==> ms'[i] == (if i < |ms| then ms[i] else m);
  }

  /** Two threads hold identifier 1, as allocations 2^31 and 2^31 + 1; slot 1 holds `x`. */
  predicate Twins(j: Joint, x: Slot, pc: Pc) {
    && j.base == IDS - 1 && j.alloc == A.State(1, {}, [1, 1]) && j.net.allocs == IDS + 1
    && |j.net.slots| == SLOTS && j.net.slots[1] == x && j.net.pc == pc
    && j.net.pipe == [] && j.net.ev == [] && j.net.marked == map[] && j.net.unsent == {}
  }

  lemma LateNumbers(s: State)
    requires Inv(s) && s.allocs == IDS - 1 && s.slots[1].kind == Invalid
    ensures s.slots[1].pending == 0 && IDS !in s.issued && IDS + 1 !in s.issued
  {
    hide IdOf, Home, HashId, Created, Promised, NoLeak, Ordered, AllNewest, MarkedOk, EventsOk;
    assert SlotOk(s.slots[1], 1, s);
  }

  /** A server that has made 2^31 - 1 allocations and has all slots free again. */
  lemma AlmostRound() returns (states: seq<State>, acts: seq<Act>)
    ensures GoodRun(states, acts)
    ensures var s := Last(states);
      && s.allocs == IDS - 1 && Calm(s) && s.ev == [] && s.drawn == {}
      && IDS !in s.issued && IDS + 1 !in s.issued && s.slots[1].kind == Invalid && s.slots[1].pending == 0
  {
    hide Inv, IdOf, HashId, Home, CtrlState, Reserved;
    states, acts := Empty();
    states, acts := Cycles(states, acts, IDS - 1, -1);
    RunInv(states, acts, |acts|);
    LateNumbers(Last(states));
  }

  /** Both threads increment before either masks. */
  lemma Meet(s: State) returns (js: seq<Joint>, ms: seq<Move>)
    requires |s.slots| == SLOTS && s.allocs == IDS - 1 && Calm(s) && s.ev == [] && s.drawn == {}
    ensures JointRun(js, ms) && js[0].net == s && js[0].base == IDS - 1
    ensures Twins(js[|ms|], s.slots[1], Idle) && js[|ms|].net.drawn == {IDS, IDS + 1} && js[|ms|].net.issued == s.issued
  {
    hide HashId, Home;
    var c0 := A.State(IDS - 1, {}, []);
    js, ms := [Joint(IDS - 1, c0, s)], [];
    js, ms := More(js, ms, Count(A.Increment(0)));
    js, ms := More(js, ms, Count(A.Increment(1)));
    assert js[2].alloc.waiting == {0, 1};
    js, ms := More(js, ms, Count(A.Mask(0)));
    assert js[3].alloc == A.State(1, {1}, [1]) && js[3].net.drawn == {IDS};
    js, ms := More(js, ms, Count(A.Mask(1)));
    assert js[4].alloc == A.State(1, {}, [1, 1]);
  }

  lemma HashOne()
    ensures HashId(1) == 1
  { }

  /** The thread with number k reserves slot 1 and its open succeeds. */
  lemma Opens(js: seq<Joint>, ms: seq<Move>, k: nat, x: Slot) returns (js': seq<Joint>, ms': seq<Move>)
    requires JointRun(js, ms) && k < 2 && Twins(js[|ms|], x, Idle) && x.kind == Invalid && x.pending == 0
    requires IDS + k in js[|ms|].net.drawn
    ensures JointRun(js', ms') && js <= js' && Twins(js'[|ms'|], Slot(Connected, 1, IDS + k, 0), Idle)
    ensures js'[|ms'|].net.drawn == js[|ms|].net.drawn - {IDS + k} && js'[|ms'|].net.issued == js[|ms|].net.issued + {IDS + k}
  {
    hide HashId, Home, IdOf;
    HashOne();
    var n := IDS + k;
    js', ms' := More(js, ms, Net(Mark(n)));
    assert js'[|ms'|].net.marked == map[1 := n];
    js', ms' := More(js', ms', Net(Store(1)));
    var j := js'[|ms'|];
    assert j.net.marked == map[] && j.net.unsent == {n} && j.net.slots[1] == Slot(Reserve, 1, n, 0);
    js', ms' := More(js', ms', Net(Publish(n, DoOpen)));
    j := js'[|ms'|];
    assert j.net.unsent == {} && j.net.pipe == [Request(DoOpen, 1, n)];
    js', ms' := More(js', ms', Net(Ctrl(FINE)));
    assert js'[|ms'|].net.pipe == [];
  }

  /** A close request of the thread with number k is carried out. */
  lemma Closes(js: seq<Joint>, ms: seq<Move>, k: nat, b: nat) returns (js': seq<Joint>, ms': seq<Move>)
    requires JointRun(js, ms) && k < 2 && Twins(js[|ms|], Slot(Connected, 1, b, 0), Idle) && IDS + k in js[|ms|].net.issued
    ensures JointRun(js', ms') && js <= js' && |ms'| == |ms| + 2
    ensures Twins(js'[|ms'|], Slot(Invalid, 1, b, 0), Clearing(1)) && ms'[|ms'| - 1] == Net(Ctrl(FINE))
    ensures js'[|ms'| - 1].net.pipe == [Request(DoClose, 1, IDS + k)]
    ensures js'[|ms'| - 1].net.slots[1] == Slot(Connected, 1, b, 0)
    ensures js'[|ms'|].net.drawn == js[|ms|].net.drawn && js'[|ms'|].net.issued == js[|ms|].net.issued
  {
    hide HashId, Home, IdOf;
    HashOne();
    js', ms' := More(js, ms, Net(Ask(Request(DoClose, 1, IDS + k))));
    assert js'[|ms'|].net.pipe == [Request(DoClose, 1, IDS + k)];
    js', ms' := More(js', ms', Net(Ctrl(FINE)));
    assert js'[|ms'|].net.pipe == [];
  }

  lemma Clears(js: seq<Joint>, ms: seq<Move>, x: Slot) returns (js': seq<Joint>, ms': seq<Move>)
    requires JointRun(js, ms) && Twins(js[|ms|], x, Clearing(1))
    ensures JointRun(js', ms') && js <= js' && Twins(js'[|ms'|], x, Idle)
    ensures js'[|ms'|].net.drawn == js[|ms|].net.drawn && js'[|ms'|].net.issued == js[|ms|].net.issued
  {
    hide HashId, Home, IdOf;
    js', ms' := More(js, ms, Net(Clear));
  }

  /** A run from the start of the server: two threads meet at the signed end and both get
      identifier 1; the first opens and closes its socket, the second opens its own, and a late
      close request of the first closes it. */
  lemma TwinClosed() returns (states: seq<State>, acts: seq<Act>, js: seq<Joint>, ms: seq<Move>)
    ensures GoodRun(states, acts) && JointRun(js, ms) && js[0].net == Last(states) && |ms| > 0
    ensures ms[|ms| - 1] == Net(Ctrl(FINE))
    ensures var s, t := js[|ms| - 1].net, js[|ms|].net;
      && s.pipe == [Request(DoClose, 1, IDS)] && s.slots[1] == Slot(Connected, 1, IDS + 1, 0)
      && t.slots[1] == Slot(Invalid, 1, IDS + 1, 0) && t.allocs == js[0].net.allocs + 2
  {
    hide Inv, IdOf, HashId, Home, Init, Enabled, Next;
    states, acts := AlmostRound();
    var x := Last(states).slots[1];
    js, ms := Meet(Last(states));
    js, ms := Opens(js, ms, 0, x);
    js, ms := Closes(js, ms, 0, IDS);
    js, ms := Clears(js, ms, Slot(Invalid, 1, IDS, 0));
    js, ms := Opens(js, ms, 1, Slot(Invalid, 1, IDS, 0));
    js, ms := Closes(js, ms, 0, IDS + 1);
  }
}
