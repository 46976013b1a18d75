/** The two maps of the game timer and what happens to a timer between AddTimer and
    its queue.  Pure model; one step is what runs under the timer lock. */
module TimerRegistry {
  import opened WheelSlots
  import opened FlatTimers

  const UINT32_MAX: nat := 0xFFFF_FFFF
  const MAX_KEY: nat := 128

  datatype Context = Context(handle: nat, key: string, callback: nat, queue: nat)

  /** `dispatching` is the list the timer thread has detached from the wheel and
      not yet worked off; `queued` is every context pushed to a timer queue so far. */
  datatype Game = Game(counter: nat, contexts: map<nat, Context>, keys: map<string, nat>,
                       flat: Flat, dispatching: seq<Event>, queued: seq<Context>)

  const INITIAL: Game := Game(0, map[], map[], Flat(0, []), [], [])

  /** What survives of a key in the fixed character array of a context. */
  function CString(key: string): (r: string)
    ensures r <= key
    ensures r == key <==> '\0' !in key
  {
    if key == [] || key[0] == '\0' then [] else [key[0]] + CString(key[1..])
  }

  // ---- the steps ----------------------------------------------------------

  function Drop(g: Game, handle: nat): Game {
    if handle in g.contexts
    then g.(keys := g.keys - {g.contexts[handle].key}, contexts := g.contexts - {handle})
    else g
  }

  function AddTimer(g: Game, key: string, handle: nat, delay: nat, callback: nat, queue: nat): Game {
    if |key| > MAX_KEY then g else
      var g' := if key in g.keys then Drop(g, g.keys[key]) else g;
      var keys' := if key in g'.keys then g'.keys else g'.keys[key := handle];
      g'.(counter := handle, keys := keys',
          contexts := g'.contexts[handle := Context(handle, CString(key), callback, queue)],
          flat := Add(g.flat, delay, handle))
  }

  function RemoveTimer(g: Game, key: string): Game {
    if |key| > MAX_KEY then g else
      var g' := if key in g.keys then Drop(g, g.keys[key]) else g;
      g'.(keys := g'.keys - {key})
  }

  /** One timer_update up to the point where the due list is detached. */
  function TickStep(g: Game): Game {
    g.(flat := Tick(g.flat), dispatching := Due(g.flat.pending, g.flat.now + 1))
  }

  /** TimerTimeout for the next detached node. */
  function Timeout(g: Game): Game
    requires g.dispatching != []
  {
    var h := g.dispatching[0];
    var g' := if h in g.contexts then g.(queued := g.queued + [g.contexts[h]]) else g;
    Drop(g', h).(dispatching := g.dispatching[1..])
  }

  // ---- the maps -----------------------------------------------------------

  ghost predicate Inverse(g: Game) {
    && (forall k :: k in g.keys ==> g.keys[k] in g.contexts && g.contexts[g.keys[k]].key == k)
    && (forall h :: h in g.contexts ==> g.contexts[h].key in g.keys && g.keys[g.contexts[h].key] == h)
  }

  lemma DropInverse(g: Game, h: nat)
    requires Inverse(g)
    ensures Inverse(Drop(g, h))
  { }

  /** The maps stay inverse exactly for keys without a NUL character. */
  lemma AddInverse(g: Game, key: string, handle: nat, delay: nat, callback: nat, queue: nat)
    requires Inverse(g) && |key| <= MAX_KEY && handle !in g.contexts
    ensures Inverse(AddTimer(g, key, handle, delay, callback, queue)) <==> '\0' !in key
  {
    var g' := if key in g.keys then Drop(g, g.keys[key]) else g;
    assert Inverse(g') && key !in g'.keys;
    var r := AddTimer(g, key, handle, delay, callback, queue);
    assert r.keys[key] == handle && r.contexts[handle].key == CString(key);
    if '\0' !in key {
      forall k | k in r.keys ensures r.keys[k] in r.contexts && r.contexts[r.keys[k]].key == k { }
    }
  }

  /** A concrete pair of timers that disturb each other: dropping the second, whose
      key is cut at its NUL, takes the first one's key entry with it. */
  lemma NulKeyDisturbs()
    ensures var g := AddTimer(AddTimer(INITIAL, "a", 1, 5, 0, 0), "a\0b", 2, 5, 0, 0);
      1 in g.contexts && "a" in g.keys && "a" !in Drop(g, 2).keys && 1 in Drop(g, 2).contexts
  { }

  /** A timer that replaces another one of its key can be taken back by that key exactly if the key
      has no NUL: otherwise the key still names the timer that is gone. */
  lemma SecondTimer(g: Game, key: string, h: nat, h': nat, d: nat, d': nat, callback: nat, queue: nat)
    requires |key| <= MAX_KEY && key !in g.keys && h !in g.contexts && h' !in g.contexts && h != h'
    ensures var g' := AddTimer(AddTimer(g, key, h, d, callback, queue), key, h', d', callback, queue);
      && h !in g'.contexts && h' in g'.contexts && key in g'.keys
      && (h' in RemoveTimer(g', key).contexts <==> '\0' in key)
  { }

  // ---- fate of a timer ------------------------------------------------------

  ghost predicate Distinct(p: seq<Entry>) {
    forall i, j :: 0 <= i < j < |p| ==> p[i].event != p[j].event
  }

  ghost predicate NoRepeat(s: seq<Event>) {
    forall i, j :: 0 <= i < j < |s| ==> s[i] != s[j]
  }

  /** What a timer was added with. */
  datatype Asked = Asked(key: string, callback: nat, queue: nat)

  /** For every handle issued: its deadline, whether it was taken back, and what was asked for. */
  datatype Fate = Fate(deadline: map<nat, nat>, cancelled: set<nat>, asked: map<nat, Asked>)

  ghost function Handles(q: seq<Context>): set<nat> {
    if q == [] then {} else Handles(q[..|q| - 1]) + {q[|q| - 1].handle}
  }

  ghost predicate WasQueued(g: Game, h: nat) { h in Handles(g.queued) }

  /** No handle was pushed to a queue twice. */
  ghost predicate QueuedOnce(q: seq<Context>) {
    q == [] || (QueuedOnce(q[..|q| - 1]) && q[|q| - 1].handle !in Handles(q[..|q| - 1]))
  }

  lemma {:induction false} QueuedOnceMeans(q: seq<Context>, i: nat, j: nat)
    requires QueuedOnce(q) && i < j < |q|
    ensures q[i].handle != q[j].handle
  {
    if j == |q| - 1 { HandlesMember(q[..j], i); } else { QueuedOnceMeans(q[..|q| - 1], i, j); }
  }

  lemma {:induction false} HandlesMember(q: seq<Context>, i: nat)
    requires i < |q|
    ensures q[i].handle in Handles(q)
  {
    if i < |q| - 1 { HandlesMember(q[..|q| - 1], i); }
  }

  lemma HandlesNext(q: seq<Context>, c: Context)
    ensures Handles(q + [c]) == Handles(q) + {c.handle}
    ensures QueuedOnce(q + [c]) <==> QueuedOnce(q) && c.handle !in Handles(q)
  { }

  /** Still to come: in the wheel at its deadline, or in the list being dispatched now. */
  ghost predicate Coming(g: Game, f: Fate, h: nat)
    requires h in f.deadline
  {
    Entry(f.deadline[h], h) in g.flat.pending || (h in g.dispatching && f.deadline[h] == g.flat.now)
  }

  /** Live, cancelled and queued partition the handles issued. */
  ghost predicate Accounts(g: Game, f: Fate) {
    && (forall h :: h in g.contexts ==> g.contexts[h].handle == h)
    && (forall h :: h in f.deadline <==> 1 <= h <= g.counter)
    && f.deadline.Keys == g.contexts.Keys + f.cancelled + Handles(g.queued)
    && g.contexts.Keys !! f.cancelled !! Handles(g.queued)
    && QueuedOnce(g.queued)
  }

  /** The wheel and the list being dispatched hold each issued handle at most once,
      at its own deadline. */
  ghost predicate Scheduled(g: Game, f: Fate) {
    && Distinct(g.flat.pending) && NoRepeat(g.dispatching)
    && (forall x :: x in g.flat.pending ==>
          x.event in f.deadline && x.deadline == f.deadline[x.event] && x.deadline > g.flat.now)
    && (forall h :: h in g.dispatching ==> h in f.deadline && f.deadline[h] == g.flat.now)
  }

  ghost predicate AllComing(g: Game, f: Fate) {
    forall h :: h in g.contexts && h in f.deadline ==> Coming(g, f, h)
  }

  ghost predicate Inv(g: Game, f: Fate) {
    Inverse(g) && Accounts(g, f) && Scheduled(g, f) && AllComing(g, f)
  }

  function Cancel(g: Game, f: Fate, key: string): Fate {
    if key in g.keys then f.(cancelled := f.cancelled + {g.keys[key]}) else f
  }

  lemma DropKey(g: Game, f: Fate, key: string)
    requires Inv(g, f) && key in g.keys
    ensures Inv(Drop(g, g.keys[key]), Cancel(g, f, key)) && key !in Drop(g, g.keys[key]).keys
  { }

  lemma RemoveKeeps(g: Game, f: Fate, key: string)
    requires Inv(g, f) && |key| <= MAX_KEY
    ensures Inv(RemoveTimer(g, key), Cancel(g, f, key))
  {
    if key in g.keys { DropKey(g, f, key); }
    var g' := if key in g.keys then Drop(g, g.keys[key]) else g;
    assert RemoveTimer(g, key) == g' by { assert g'.keys - {key} == g'.keys; }
  }

  lemma AddAccounts(g: Game, f: Fate, key: string, delay: nat, callback: nat, queue: nat)
    requires Accounts(g, f) && |key| <= MAX_KEY && key !in g.keys
    ensures var h := g.counter + 1;
      Accounts(AddTimer(g, key, h, delay, callback, queue), f.(deadline := f.deadline[h := g.flat.now + delay]))
  { }

  lemma AddScheduled(g: Game, f: Fate, key: string, delay: nat, callback: nat, queue: nat)
    requires Scheduled(g, f) && AllComing(g, f) && |key| <= MAX_KEY && key !in g.keys && 1 <= delay
    requires g.counter + 1 !in f.deadline && g.counter + 1 !in g.contexts
    ensures var h := g.counter + 1;
      var r, f' := AddTimer(g, key, h, delay, callback, queue), f.(deadline := f.deadline[h := g.flat.now + delay]);
      Scheduled(r, f') && AllComing(r, f')
  { }

  /** Handle, deadline and maps of a timer added under a free key. */
  lemma AddFreshKeeps(g: Game, f: Fate, key: string, delay: nat, callback: nat, queue: nat)
    requires Inv(g, f) && |key| <= MAX_KEY && '\0' !in key && key !in g.keys && 1 <= delay
    ensures var h := g.counter + 1;
      Inv(AddTimer(g, key, h, delay, callback, queue), f.(deadline := f.deadline[h := g.flat.now + delay]))
  {
    hide Inverse, Scheduled, AllComing, AddTimer;
    AddInverse(g, key, g.counter + 1, delay, callback, queue);
    AddAccounts(g, f, key, delay, callback, queue);
    AddScheduled(g, f, key, delay, callback, queue);
  }

  lemma AddKeeps(g: Game, f: Fate, key: string, delay: nat, callback: nat, queue: nat)
    requires Inv(g, f) && |key| <= MAX_KEY && '\0' !in key && 1 <= delay
    ensures var h := g.counter + 1; var f' := Cancel(g, f, key);
      Inv(AddTimer(g, key, h, delay, callback, queue), f'.(deadline := f.deadline[h := g.flat.now + delay]))
  {
    hide Inv;
    var g', h := if key in g.keys then Drop(g, g.keys[key]) else g, g.counter + 1;
    assert Inv(g', Cancel(g, f, key)) && key !in g'.keys by { if key in g.keys { DropKey(g, f, key); } }
    AddFreshKeeps(g', Cancel(g, f, key), key, delay, callback, queue);
    assert AddTimer(g, key, h, delay, callback, queue) == AddTimer(g', key, h, delay, callback, queue);
  }

  lemma {:induction false} AfterMember(p: seq<Entry>, k: nat, x: Entry)
    ensures x in After(p, k) <==> x in p && x.deadline > k
  {
    if p != [] {
      assert p == p[..|p| - 1] + [p[|p| - 1]];
      AfterMember(p[..|p| - 1], k, x);
    }
  }

  lemma {:induction false} DueMember(p: seq<Entry>, k: nat, e: Event)
    ensures e in Due(p, k) <==> Entry(k, e) in p
  {
    if p != [] {
      assert p == p[..|p| - 1] + [p[|p| - 1]];
      DueMember(p[..|p| - 1], k, e);
    }
  }

  lemma {:induction false} TickDistinct(p: seq<Entry>, k: nat)
    requires Distinct(p)
    ensures Distinct(After(p, k)) && NoRepeat(Due(p, k))
  {
    if p != [] {
      var q, x := p[..|p| - 1], p[|p| - 1];
      TickDistinct(q, k);
      forall i | 0 <= i < |After(q, k)| ensures After(q, k)[i].event != x.event {
        AfterMember(q, k, After(q, k)[i]);
      }
      forall i | 0 <= i < |Due(q, k)| ensures Due(q, k)[i] != x.event {
        DueMember(q, k, Due(q, k)[i]);
      }
    }
  }

  lemma TickScheduled(g: Game, f: Fate)
    requires Scheduled(g, f) && AllComing(g, f) && g.dispatching == []
    ensures Scheduled(TickStep(g), f) && AllComing(TickStep(g), f)
  {
    var r, p, k := TickStep(g), g.flat.pending, g.flat.now + 1;
    TickDistinct(p, k);
    forall x ensures x in After(p, k) <==> x in p && x.deadline > k { AfterMember(p, k, x); }
    forall e ensures e in Due(p, k) <==> Entry(k, e) in p { DueMember(p, k, e); }
    forall h | h in r.contexts && h in f.deadline ensures Coming(r, f, h) {
      assert Coming(g, f, h);
    }
  }

  lemma TickKeeps(g: Game, f: Fate)
    requires Inv(g, f) && g.dispatching == []
    ensures Inv(TickStep(g), f)
  {
    hide Scheduled, AllComing;
    TickScheduled(g, f);
  }

  lemma TimeoutAccounts(g: Game, f: Fate)
    requires Accounts(g, f) && g.dispatching != []
    ensures Accounts(Timeout(g), f)
  {
    var h := g.dispatching[0];
    if h in g.contexts { HandlesNext(g.queued, g.contexts[h]); }
  }

  lemma TimeoutScheduled(g: Game, f: Fate)
    requires Scheduled(g, f) && AllComing(g, f) && g.dispatching != []
    ensures Scheduled(Timeout(g), f) && AllComing(Timeout(g), f)
  { }

  /** A dispatched node pushes its timer exactly when the timer is still registered,
      and then at its deadline. */
  lemma TimeoutKeeps(g: Game, f: Fate)
    requires Inv(g, f) && g.dispatching != []
    ensures Inv(Timeout(g), f)
    ensures var h := g.dispatching[0];
      && Timeout(g).queued == (if h in g.contexts then g.queued + [g.contexts[h]] else g.queued)
      && h in f.deadline && f.deadline[h] == g.flat.now
  {
    var h := g.dispatching[0];
    assert h in g.dispatching;
    assert Inverse(Timeout(g)) by { hide Accounts, Scheduled, AllComing; DropInverse(g, h); }
    assert Inv(Timeout(g), f) by {
      hide Inverse, Accounts, Scheduled, AllComing, Timeout;
      TimeoutAccounts(g, f);
      TimeoutScheduled(g, f);
    }
  }

  // ---- whole runs -----------------------------------------------------------

  datatype Step =
    | Start(key: string, delay: nat, callback: nat, queue: nat)
    | Stop(key: string)
    | Tick1
    | Next

  /** Application threads add and remove at any time; the timer thread ticks only
      after it has worked off the detached list. */
  ghost predicate Enabled(g: Game, s: Step) {
    match s
    case Start(key, delay, _, _) => '\0' !in key && 1 <= delay < HALF && g.counter + 1 < UINT32_MAX
    case Stop(_) => true
    case Tick1 => g.dispatching == []
    case Next => g.dispatching != []
  }

  ghost function Exec(g: Game, s: Step): Game
    requires Enabled(g, s)
  {
    match s
    case Start(key, delay, callback, queue) => AddTimer(g, key, g.counter + 1, delay, callback, queue)
    case Stop(key) => RemoveTimer(g, key)
    case Tick1 => TickStep(g)
    case Next => Timeout(g)
  }

  ghost function ExecFate(g: Game, f: Fate, s: Step): Fate {
    match s
    case Start(key, delay, callback, queue) =>
      if |key| > MAX_KEY then f
      else Cancel(g, f, key).(deadline := f.deadline[g.counter + 1 := g.flat.now + delay],
                              asked := f.asked[g.counter + 1 := Asked(key, callback, queue)])
    case Stop(key) => if |key| > MAX_KEY then f else Cancel(g, f, key)
    case _ => f
  }

  /** States of a run; state i+1 follows state i by step i. */
  ghost predicate IsRun(gs: seq<Game>, fs: seq<Fate>, steps: seq<Step>) {
    && |gs| == |fs| == |steps| + 1
    && gs[0] == INITIAL && fs[0] == Fate(map[], {}, map[])
    && forall i :: 0 <= i < |steps| ==>
         Enabled(gs[i], steps[i]) && gs[i + 1] == Exec(gs[i], steps[i]) && fs[i + 1] == ExecFate(gs[i], fs[i], steps[i])
  }

  lemma SameFate(g: Game, f: Fate, f': Fate)
    requires Inv(g, f) && f'.deadline == f.deadline && f'.cancelled == f.cancelled
    ensures Inv(g, f')
  { }

  lemma StepKeeps(g: Game, f: Fate, s: Step)
    requires Inv(g, f) && Enabled(g, s)
    ensures Inv(Exec(g, s), ExecFate(g, f, s))
  {
    hide Inv;
    match s
    case Start(key, delay, callback, queue) =>
      if |key| <= MAX_KEY {
        AddKeeps(g, f, key, delay, callback, queue);
        SameFate(Exec(g, s), Cancel(g, f, key).(deadline := f.deadline[g.counter + 1 := g.flat.now + delay]), ExecFate(g, f, s));
      }
    case Stop(key) => if |key| <= MAX_KEY { RemoveKeeps(g, f, key); }
    case Tick1 => TickKeeps(g, f);
    case Next => TimeoutKeeps(g, f);
  }

  lemma {:induction false} RunInv(gs: seq<Game>, fs: seq<Fate>, steps: seq<Step>, n: nat)
    requires IsRun(gs, fs, steps) && n < |gs|
    ensures Inv(gs[n], fs[n])
  {
    if n > 0 {
      RunInv(gs, fs, steps, n - 1);
      StepKeeps(gs[n - 1], fs[n - 1], steps[n - 1]);
    }
  }

  lemma StepMonotone(g: Game, f: Fate, s: Step)
    requires Inv(g, f) && Enabled(g, s)
    ensures f.cancelled <= ExecFate(g, f, s).cancelled
    ensures forall h :: h in f.deadline ==> h in ExecFate(g, f, s).deadline && ExecFate(g, f, s).deadline[h] == f.deadline[h]
    ensures g.queued <= Exec(g, s).queued
  { }

  lemma {:induction false} RunMonotone(gs: seq<Game>, fs: seq<Fate>, steps: seq<Step>, m: nat, n: nat)
    requires IsRun(gs, fs, steps) && m <= n < |gs|
    ensures fs[m].cancelled <= fs[n].cancelled
    ensures forall h :: h in fs[m].deadline ==> h in fs[n].deadline && fs[n].deadline[h] == fs[m].deadline[h]
    ensures gs[m].queued <= gs[n].queued
    decreases n - m
  {
    hide Inv, Exec, ExecFate, Enabled;
    if m < n {
      RunMonotone(gs, fs, steps, m, n - 1);
      RunInv(gs, fs, steps, n - 1);
      StepMonotone(gs[n - 1], fs[n - 1], steps[n - 1]);
    }
  }

  /** In every run: a timer removed or replaced while live never enters a queue
      afterwards; a timer whose deadline has passed and that was not taken back is in
      a queue exactly once. */
  lemma TimerFate(gs: seq<Game>, fs: seq<Fate>, steps: seq<Step>, m: nat, n: nat, h: nat)
    requires IsRun(gs, fs, steps) && m <= n < |gs| && h in fs[m].deadline
    ensures h in fs[m].cancelled ==> !WasQueued(gs[n], h)
    ensures h !in fs[n].cancelled && (fs[m].deadline[h] < gs[n].flat.now
              || (fs[m].deadline[h] == gs[n].flat.now && gs[n].dispatching == []))
            ==> WasQueued(gs[n], h)
    ensures QueuedOnce(gs[n].queued)
  {
    RunInv(gs, fs, steps, n);
    RunMonotone(gs, fs, steps, m, n);
    if h in gs[n].contexts { assert Coming(gs[n], fs[n], h); }
  }

  /** In every run a timer enters its queue only while the clock shows its deadline. */
  lemma QueuedAtDeadline(gs: seq<Game>, fs: seq<Fate>, steps: seq<Step>, n: nat, h: nat)
    requires IsRun(gs, fs, steps) && n + 1 < |gs|
    requires !WasQueued(gs[n], h) && WasQueued(gs[n + 1], h)
    ensures h in fs[n].deadline && fs[n].deadline[h] == gs[n].flat.now
  {
    RunInv(gs, fs, steps, n);
    var g := gs[n];
    assert gs[n + 1] == Exec(g, steps[n]);
    if steps[n].Next? {
      TimeoutKeeps(g, fs[n]);
      var c := g.dispatching[0];
      if c in g.contexts { HandlesNext(g.queued, g.contexts[c]); }
    }
  }

  lemma StepForward(g: Game, s: Step)
    requires Enabled(g, s)
    ensures g.flat.now <= Exec(g, s).flat.now
  { }

  /** In every run what is in a queue was due. */
  lemma {:induction false} QueuedNotEarly(gs: seq<Game>, fs: seq<Fate>, steps: seq<Step>, n: nat, h: nat)
    requires IsRun(gs, fs, steps) && n < |gs| && WasQueued(gs[n], h)
    ensures h in fs[n].deadline && fs[n].deadline[h] <= gs[n].flat.now
  {
    hide Inv, Exec, ExecFate, Enabled;
    if n > 0 {
      if WasQueued(gs[n - 1], h) {
        QueuedNotEarly(gs, fs, steps, n - 1, h);
      } else {
        QueuedAtDeadline(gs, fs, steps, n - 1, h);
      }
      RunInv(gs, fs, steps, n - 1);
      StepMonotone(gs[n - 1], fs[n - 1], steps[n - 1]);
      StepForward(gs[n - 1], steps[n - 1]);
    }
  }

  // ---- what is pushed, and in which order ---------------------------------------

  function ContextOf(h: nat, a: Asked): Context { Context(h, a.key, a.callback, a.queue) }

  /** Every context, live or pushed, carries what its timer was added with. */
  ghost predicate Truthful(g: Game, f: Fate) {
    && f.asked.Keys == f.deadline.Keys
    && (forall h :: h in g.contexts ==> h in f.asked && g.contexts[h] == ContextOf(h, f.asked[h]))
    && (forall i :: 0 <= i < |g.queued| ==>
          g.queued[i].handle in f.asked && g.queued[i] == ContextOf(g.queued[i].handle, f.asked[g.queued[i].handle]))
  }

  /** Timer a is due before b: at an earlier tick, or at the same tick and added before it. */
  ghost predicate Earlier(f: Fate, a: nat, b: nat) {
    a in f.deadline && b in f.deadline && (f.deadline[a] < f.deadline[b] || (f.deadline[a] == f.deadline[b] && a < b))
  }

  ghost predicate InTurn(p: seq<Entry>) { forall i, j :: 0 <= i < j < |p| ==> p[i].event < p[j].event }

  ghost predicate Rising(s: seq<Event>) { forall i, j :: 0 <= i < j < |s| ==> s[i] < s[j] }

  /** Timers were pushed in the order they were due, and the rest follows in that order. */
  ghost predicate Sorted(g: Game, f: Fate) {
    && InTurn(g.flat.pending) && Rising(g.dispatching)
    && (forall i, j :: 0 <= i < j < |g.queued| ==> Earlier(f, g.queued[i].handle, g.queued[j].handle))
    && (forall i, j :: 0 <= i < |g.queued| && 0 <= j < |g.dispatching| ==> Earlier(f, g.queued[i].handle, g.dispatching[j]))
    && (forall i :: 0 <= i < |g.queued| ==> g.queued[i].handle in f.deadline && f.deadline[g.queued[i].handle] <= g.flat.now)
  }

  lemma TruthStep(g: Game, f: Fate, s: Step)
    requires Inv(g, f) && Truthful(g, f) && Enabled(g, s)
    ensures Truthful(Exec(g, s), ExecFate(g, f, s))
  {
    match s
    case Start(key, delay, callback, queue) => if |key| <= MAX_KEY { AddTruth(g, f, s); }
    case Stop(key) => StopTruth(g, f, key);
    case Tick1 =>
    case Next => NextTruth(g, f);
  }

  lemma AddTruth(g: Game, f: Fate, s: Step)
    requires Inv(g, f) && Truthful(g, f) && Enabled(g, s) && s.Start? && |s.key| <= MAX_KEY
    ensures Truthful(Exec(g, s), ExecFate(g, f, s))
  {
    hide Inv, Exec, ExecFate;
    NewHandle(g, f);
    StartParts(g, f, s);
    var r, f' := Exec(g, s), ExecFate(g, f, s);
    forall h | h in r.contexts ensures h in f'.asked && r.contexts[h] == ContextOf(h, f'.asked[h]) {
      assert h in g.contexts.Keys + {g.counter + 1};
    }
  }

  lemma StopTruth(g: Game, f: Fate, key: string)
    requires Truthful(g, f)
    ensures Truthful(RemoveTimer(g, key), ExecFate(g, f, Stop(key)))
  { }

  lemma NextTruth(g: Game, f: Fate)
    requires Inv(g, f) && Truthful(g, f) && g.dispatching != []
    ensures Truthful(Timeout(g), f)
  {
    hide Inverse, AllComing, Scheduled;
  }

  lemma {:induction false} AfterInTurn(p: seq<Entry>, k: nat)
    requires InTurn(p)
    ensures InTurn(After(p, k))
  {
    if p != [] {
      var q, x := p[..|p| - 1], p[|p| - 1];
      AfterInTurn(q, k);
      forall i | 0 <= i < |After(q, k)| ensures After(q, k)[i].event < x.event {
        AfterMember(q, k, After(q, k)[i]);
      }
    }
  }

  lemma DueRising(p: seq<Entry>, k: nat)
    requires InTurn(p)
    ensures Rising(Due(p, k))
  {
    var ix := DueOrder(p, k);
    forall i, j | 0 <= i < j < |Due(p, k)| ensures Due(p, k)[i] < Due(p, k)[j] {
      assert p[ix[i]].event < p[ix[j]].event;
    }
  }

  lemma StartParts(g: Game, f: Fate, s: Step)
    requires Enabled(g, s) && s.Start? && |s.key| <= MAX_KEY
    ensures var r, h := Exec(g, s), g.counter + 1;
      && r.flat == Add(g.flat, s.delay, h) && r.queued == g.queued && r.dispatching == g.dispatching
      && ExecFate(g, f, s).deadline == f.deadline[h := g.flat.now + s.delay]
      && ExecFate(g, f, s).asked == f.asked[h := Asked(s.key, s.callback, s.queue)]
      && (forall k :: k in r.contexts ==> r.contexts[k] == if k == h then ContextOf(h, Asked(s.key, s.callback, s.queue)) else if k in g.contexts then g.contexts[k] else r.contexts[k])
      && r.contexts.Keys <= g.contexts.Keys + {h}
  {
    assert CString(s.key) == s.key;
  }

  /** Handles issued so far are those up to the counter. */
  lemma NewHandle(g: Game, f: Fate)
    requires Inv(g, f)
    ensures g.counter + 1 !in f.deadline && g.counter + 1 !in g.contexts
    ensures forall i :: 0 <= i < |g.flat.pending| ==> g.flat.pending[i].event <= g.counter
  {
    hide Inverse, AllComing;
    assert forall i :: 0 <= i < |g.flat.pending| ==> g.flat.pending[i] in g.flat.pending;
  }

  lemma AddSorted(g: Game, f: Fate, s: Step)
    requires Inv(g, f) && Sorted(g, f) && Enabled(g, s) && s.Start? && |s.key| <= MAX_KEY
    ensures Sorted(Exec(g, s), ExecFate(g, f, s))
  {
    hide Inv, Exec, ExecFate;
    NewHandle(g, f);
    StartParts(g, f, s);
  }

  lemma TickSorted(g: Game, f: Fate)
    requires Inv(g, f) && Sorted(g, f) && g.dispatching == []
    ensures Sorted(TickStep(g), f)
  {
    hide Inverse, AllComing, Accounts, After, Due;
    var p, k := g.flat.pending, g.flat.now + 1;
    AfterInTurn(p, k);
    DueRising(p, k);
    forall j | 0 <= j < |Due(p, k)| ensures Due(p, k)[j] in f.deadline && f.deadline[Due(p, k)[j]] == k {
      DueMember(p, k, Due(p, k)[j]);
    }
  }

  lemma NextSorted(g: Game, f: Fate)
    requires Inv(g, f) && Sorted(g, f) && g.dispatching != []
    ensures Sorted(Timeout(g), f)
  {
    hide Inverse, AllComing, Accounts;
    var h, t := g.dispatching[0], Timeout(g);
    assert h in g.dispatching;
    if h in g.contexts {
      assert g.contexts[h].handle == h by { ContextHandle(g, f, h); }
      forall j | 0 <= j < |t.dispatching| ensures Earlier(f, h, t.dispatching[j]) {
        assert t.dispatching[j] == g.dispatching[j + 1] && g.dispatching[j + 1] in g.dispatching;
      }
    }
  }

  lemma ContextHandle(g: Game, f: Fate, h: nat)
    requires Accounts(g, f) && h in g.contexts
    ensures g.contexts[h].handle == h
  { }

  lemma StopSorted(g: Game, f: Fate, key: string)
    requires Sorted(g, f)
    ensures Sorted(RemoveTimer(g, key), ExecFate(g, f, Stop(key)))
  { }

  lemma SortedStep(g: Game, f: Fate, s: Step)
    requires Inv(g, f) && Sorted(g, f) && Enabled(g, s)
    ensures Sorted(Exec(g, s), ExecFate(g, f, s))
  {
    hide Inv, Sorted;
    match s
    case Start(key, delay, callback, queue) => if |key| <= MAX_KEY { AddSorted(g, f, s); }
    case Stop(key) => StopSorted(g, f, key);
    case Tick1 => TickSorted(g, f);
    case Next => NextSorted(g, f);
  }

  /** In every run: what is pushed to a queue is what its timer was added with, and timers are pushed
      in the order they are due, those of one tick in the order they were added. */
  lemma {:induction false} RunSorted(gs: seq<Game>, fs: seq<Fate>, steps: seq<Step>, n: nat)
    requires IsRun(gs, fs, steps) && n < |gs|
    ensures Truthful(gs[n], fs[n]) && Sorted(gs[n], fs[n])
  {
    hide Inv, Exec, ExecFate, Enabled, Truthful, Sorted;
    if n == 0 {
      StartsSorted();
    } else {
      RunSorted(gs, fs, steps, n - 1);
      RunInv(gs, fs, steps, n - 1);
      TruthStep(gs[n - 1], fs[n - 1], steps[n - 1]);
      SortedStep(gs[n - 1], fs[n - 1], steps[n - 1]);
    }
  }

  lemma StartsSorted()
    ensures Truthful(INITIAL, Fate(map[], {}, map[])) && Sorted(INITIAL, Fate(map[], {}, map[]))
  { }
}
