/** The steps of the threads that reserve slots and write requests (SocketSlots) keep what holds
    between steps, as long as no slot is reserved under a waiting event. */
module SocketThreads {
  import opened SocketSlots

  // ---- steps of other threads ---------------------------------------------------------------

  lemma CreatedAppend(p: seq<Request>, r: Request)
    ensures Created(p + [r]) == Created(p) + (if Creates(r) then {r.who} else {})
  {
    var t := p + [r];
    forall w | w in Created(t) ensures w in Created(p) + (if Creates(r) then {r.who} else {}) {
      var k :| 0 <= k < |t| && Creates(t[k]) && t[k].who == w;
      if k < |p| { assert p[k] == t[k]; }
    }
    forall w | w in Created(p) ensures w in Created(t) {
      var k :| 0 <= k < |p| && Creates(p[k]) && p[k].who == w;
      assert t[k] == p[k];
    }
    assert t[|p|] == r;
  }

  lemma CreatedHas(p: seq<Request>)
    ensures forall k :: 0 <= k < |p| && Creates(p[k]) ==> p[k].who in Created(p)
  { }

  lemma CreatedTail(p: seq<Request>)
    requires p != []
    requires forall j, k :: 0 <= j < k < |p| && Creates(p[j]) && Creates(p[k]) ==> p[j].who != p[k].who
    ensures Created(p[1..]) == Created(p) - (if Creates(p[0]) then {p[0].who} else {})
  {
    var t := p[1..];
    forall w | w in Created(t) ensures w in Created(p) && (Creates(p[0]) ==> w != p[0].who) {
      var k :| 0 <= k < |t| && Creates(t[k]) && t[k].who == w;
      assert p[k + 1] == t[k];
    }
    forall w | w in Created(p) && !(Creates(p[0]) && w == p[0].who) ensures w in Created(t) {
      var k :| 0 <= k < |p| && Creates(p[k]) && p[k].who == w;
      assert t[k - 1] == p[k];
    }
  }

  lemma CreatedIssued(s: State)
    requires Ordered(s) && s.unsent <= s.issued
    ensures Owed(s) <= s.issued
  {
    forall w | w in Created(s.pipe) ensures w in s.issued {
      var k :| 0 <= k < |s.pipe| && Creates(s.pipe[k]) && s.pipe[k].who == w;
    }
  }

  lemma SlotsSame(s: State, t: State)
    requires SlotsOk(s) && t.slots == s.slots && t.issued == s.issued && s.listeners <= t.listeners && t.marked == s.marked
    ensures SlotsOk(t)
  {
    hide Home, IdOf;
    forall i | 0 <= i < SLOTS ensures SlotOk(t.slots[i], i, t) { assert SlotOk(s.slots[i], i, s); }
  }

  /** Steps that only count: a number is drawn, or dropped. */
  lemma CountKeeps(s: State, t: State)
    requires Inv(s) && t == s.(allocs := t.allocs, drawn := t.drawn) && s.allocs <= t.allocs
    requires forall n :: n in t.drawn ==> 1 <= n <= t.allocs && n !in t.issued && n !in t.marked.Values
    ensures Inv(t)
  {
    hide Home, IdOf, Created;
    SlotsSame(s, t);
    assert forall w :: Held(t, w) == Held(s, w);
    assert forall n :: Newest(t, n) == Newest(s, n);
    assert Owed(t) == Owed(s);
    assert EventsOk(t) by { EventsSame(s, t); }
  }

  lemma EventsSame(s: State, t: State)
    requires |s.slots| == SLOTS && EventsOk(s)
    requires t.slots == s.slots && t.ev == s.ev && t.index == s.index && t.pc == s.pc
    ensures EventsOk(t)
  {
    forall k | Awaits(t, k) ensures 0 <= t.ev[k].at < SLOTS && (Alive(t, t.ev[k]) || Closing(t, t.ev[k])) {
      assert Awaits(s, k);
    }
  }

  lemma DrawKeeps(s: State)
    requires Inv(s)
    ensures Inv(Do(s, Draw))
  {
    hide Home, IdOf, Created, EventsOk, Promised, NoLeak, Ordered, SlotsOk, AllNewest, FreeOk;
    assert forall v :: v in s.marked.Values ==> v <= s.allocs;
    CountKeeps(s, Do(s, Draw));
  }

  lemma MissKeeps(s: State, n: nat)
    requires Inv(s) && Ready(s, Miss(n))
    ensures Inv(Do(s, Miss(n)))
  {
    hide Home, IdOf, Created, EventsOk, Promised, NoLeak, Ordered, SlotsOk, AllNewest, MarkedOk, FreeOk;
    CountKeeps(s, Do(s, Miss(n)));
  }

  lemma DrawnFresh(s: State, n: nat, w: nat)
    requires Numbers(s) && n in s.drawn && s.allocs < n + IDS && w in s.issued && IdOf(w) == IdOf(n)
    ensures w <= n
  {
    hide IdOf, Home;
    SameId(n, w);
  }

  lemma MarkSlots(s: State, n: nat)
    requires Core(s) && Ready(s, Mark(n))
    ensures var t := Do(s, Mark(n)); SlotsOk(t) && MarkedOk(t)
  {
    hide IdOf, Home, Created, NoLeak, Ordered, AllNewest;
    var i, t := Home(n), Do(s, Mark(n));
    assert s.slots[i].born in Owed(s) ==> Held(s, s.slots[i].born);
    assert SlotOk(s.slots[i], i, s);
    assert forall j :: 0 <= j < SLOTS ==> SlotOk(s.slots[j], j, s);
    assert Owed(t) == Owed(s);
  }

  lemma MarkPromised(s: State, n: nat)
    requires Core(s) && Ready(s, Mark(n))
    ensures var t := Do(s, Mark(n)); Promised(t) && NoLeak(t)
  {
    hide IdOf, Home, Created, Ordered, AllNewest, SlotsOk, MarkedOk;
    var t := Do(s, Mark(n));
    assert Owed(t) == Owed(s);
    forall w | w in Owed(t) ensures Held(t, w) { assert Held(s, w); }
  }

  lemma MarkNumbers(s: State, n: nat)
    requires Core(s) && Ready(s, Mark(n)) && s.allocs < n + IDS
    ensures var t := Do(s, Mark(n)); Ordered(t) && Numbers(t) && AllNewest(t)
  {
    hide IdOf, Home, Created, SlotsOk, MarkedOk, Promised, NoLeak;
    var t := Do(s, Mark(n));
    assert forall v :: v in t.marked.Values ==> v == n || v in s.marked.Values;
    assert forall m :: Newest(t, m) == Newest(s, m);
    forall w | w in s.issued && IdOf(w) == IdOf(n) ensures w <= n { DrawnFresh(s, n, w); }
    assert forall j :: 0 <= j < SLOTS ==> t.slots[j].born == s.slots[j].born;
  }

  lemma MarkEvents(s: State, n: nat)
    requires |s.slots| == SLOTS && EventsOk(s) && FreeOk(s) && Ready(s, Mark(n))
    ensures Clean(s, Mark(n)) ==> EventsOk(Do(s, Mark(n)))
    ensures FreeOk(Do(s, Mark(n)))
    ensures !Clean(s, Mark(n)) ==> !EventsOk(Do(s, Mark(n)))
  {
    hide Home;
    var t := Do(s, Mark(n));
    assert forall k :: Awaits(t, k) <==> Awaits(s, k);
    if !Clean(s, Mark(n)) {
      var k :| Awaits(s, k) && s.ev[k].at == Home(n);
      assert Awaits(t, k) && !Alive(t, t.ev[k]) && !Closing(t, t.ev[k]);
    }
  }

  lemma MarkKeeps(s: State, n: nat)
    requires Inv(s) && Ready(s, Mark(n)) && Fresh(s, Mark(n)) && Clean(s, Mark(n))
    ensures Inv(Do(s, Mark(n)))
  {
    hide IdOf, Home, Created, SlotsOk, MarkedOk, Promised, NoLeak, Ordered, Numbers, AllNewest, EventsOk, Clean, FreeOk;
    MarkSlots(s, n);
    MarkPromised(s, n);
    MarkNumbers(s, n);
    MarkEvents(s, n);
  }

  lemma StoreSlots(s: State, i: nat)
    requires Core(s) && Ready(s, Store(i))
    ensures var t := Do(s, Store(i)); SlotsOk(t) && MarkedOk(t)
  {
    hide IdOf, Home, Created, Promised, NoLeak, Ordered, AllNewest;
    var n, t := s.marked[i], Do(s, Store(i));
    assert forall j :: 0 <= j < SLOTS ==> SlotOk(s.slots[j], j, s);
    assert forall j :: j in t.marked ==> s.marked[j] != n;
    assert Owed(t) == Owed(s) + {n};
  }

  lemma StorePromised(s: State, i: nat)
    requires Core(s) && Ready(s, Store(i))
    ensures var t := Do(s, Store(i)); Promised(t) && NoLeak(t)
  {
    CreatedIssued(s);
    hide IdOf, Home, Created, Ordered, AllNewest, SlotsOk;
    var n, t := s.marked[i], Do(s, Store(i));
    assert Owed(t) == Owed(s) + {n};
    assert n !in Created(s.pipe);
    forall w | w in Owed(t) ensures Held(t, w) {
      if w != n { assert Held(s, w); }
    }
  }

  lemma StoreNumbers(s: State, i: nat)
    requires Core(s) && Ready(s, Store(i))
    ensures var t := Do(s, Store(i)); Ordered(t) && Numbers(t)
  {
    hide IdOf, Home, Created, Promised, NoLeak, AllNewest, SlotsOk;
    var n, t := s.marked[i], Do(s, Store(i));
    assert t.marked.Values <= s.marked.Values;
  }

  lemma StoreNewest(s: State, i: nat)
    requires Core(s) && Ready(s, Store(i))
    ensures AllNewest(Do(s, Store(i)))
  {
    hide IdOf, Home, Created, Promised, NoLeak, Ordered, Numbers, Newest;
    var n, t := s.marked[i], Do(s, Store(i));
    assert forall j :: 0 <= j < SLOTS ==> SlotOk(s.slots[j], j, s);
    forall j | 0 <= j < SLOTS && t.slots[j].born != 0 ensures Newest(t, t.slots[j].born) {
      NewestStays(s, n, t, t.slots[j].born, j);
    }
    forall j | j in t.marked ensures Newest(t, t.marked[j]) { NewestStays(s, n, t, t.marked[j], j); }
  }

  /** A newly issued number is the newest of its identifier, and no other slot's. */
  lemma NewestStays(s: State, n: nat, t: State, m: nat, j: nat)
    requires t.issued == s.issued + {n} && Newest(s, m) && (m == n || Home(m) != Home(n))
    ensures Newest(t, m)
  {
    hide IdOf, Home;
    forall w | w in t.issued && IdOf(w) == IdOf(m) ensures w <= m { SameId(w, m); }
  }

  lemma StoreKeeps(s: State, i: nat)
    requires Inv(s) && Ready(s, Store(i))
    ensures Inv(Do(s, Store(i)))
  {
    hide IdOf, Home, Created, SlotsOk, Promised, NoLeak, Ordered, Numbers, AllNewest;
    StoreSlots(s, i);
    StorePromised(s, i);
    StoreNumbers(s, i);
    StoreNewest(s, i);
    var t := Do(s, Store(i));
    assert forall k :: Awaits(t, k) <==> Awaits(s, k);
  }

  lemma AppendOrdered(s: State, r: Request, t: State)
    requires Ordered(s) && t.pipe == s.pipe + [r] && t.issued == s.issued && t.unsent <= s.unsent
    requires s.listeners <= t.listeners && forall w :: w in t.listeners && w !in s.listeners ==> w in s.unsent
    requires r.who in s.issued && r.who !in t.unsent && r.id == IdOf(r.who)
    requires Creates(r) ==> r.who in s.unsent
    requires r.cmd == DoListen ==> r.who in t.listeners
    requires r.cmd == DoSend ==> r.who !in t.listeners
    ensures Ordered(t)
  {
    hide IdOf;
    forall k | 0 <= k < |t.pipe| && !Creates(t.pipe[k]) ensures t.pipe[k].who !in Created(t.pipe[k..]) {
      if k < |s.pipe| {
        assert t.pipe[k..] == s.pipe[k..] + [r];
        CreatedAppend(s.pipe[k..], r);
      }
    }
  }

  lemma SameNewest(s: State, t: State)
    requires |s.slots| == SLOTS && AllNewest(s) && t.slots == s.slots && t.issued == s.issued && t.marked == s.marked
    ensures AllNewest(t)
  {
    hide Home, IdOf;
    assert forall m :: Newest(t, m) == Newest(s, m);
  }

  /** A request enters the pipe: a creation from its reservation, or another one. */
  lemma AppendCore(s: State, r: Request, t: State)
    requires Core(s) && t == s.(pipe := s.pipe + [r], unsent := t.unsent, listeners := t.listeners)
    requires t.unsent == (if Creates(r) then s.unsent - {r.who} else s.unsent) && (Creates(r) ==> r.who in s.unsent)
    requires s.listeners <= t.listeners && Ordered(t)
    ensures Core(t)
  {
    hide Home, IdOf, Created, Ordered, AllNewest;
    CreatedAppend(s.pipe, r);
    CreatedHas(s.pipe);
    SlotsSame(s, t);
    SameNewest(s, t);
    assert Owed(t) == Owed(s);
    forall w | w in Owed(t) ensures Held(t, w) { assert Held(s, w); }
  }

  lemma PublishKeeps(s: State, w: nat, cmd: Cmd)
    requires Inv(s) && Ready(s, Publish(w, cmd))
    ensures Inv(Do(s, Publish(w, cmd)))
  {
    hide Home, IdOf, Created, Promised, NoLeak, Ordered, MarkedOk, SlotsOk, AllNewest, EventsOk;
    var t := Do(s, Publish(w, cmd));
    AppendOrdered(s, Request(cmd, IdOf(w), w), t);
    AppendCore(s, Request(cmd, IdOf(w), w), t);
    EventsSame(s, t);
  }

  lemma AskKeeps(s: State, r: Request)
    requires Inv(s) && Ready(s, Ask(r))
    ensures Inv(Do(s, Ask(r)))
  {
    hide Home, IdOf, Created, Promised, NoLeak, Ordered, MarkedOk, SlotsOk, AllNewest, EventsOk;
    var t := Do(s, Ask(r));
    AppendOrdered(s, r, t);
    AppendCore(s, r, t);
    EventsSame(s, t);
  }
}
