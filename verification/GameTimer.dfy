/** The game timer: two maps over a timing wheel, updated in place under one lock. */
module GameTimers {
  import opened WheelSlots
  import opened R = TimerRegistry
  import opened TimingWheel

  /** AddTimer with a delay of 0 or less re-enters the lock it holds. */
  datatype Outcome = Done(code: int) | Blocked

  class GameTimer {
    var counter: nat
    var contexts: map<nat, Context>
    var keys: map<string, nat>
    var dispatching: seq<nat>
    var queued: seq<Context>
    var locked: bool
    var current: nat
    var currentPoint: nat
    const wheel: Wheel

    ghost predicate Valid()
      reads this, wheel, wheel.near, wheel.levels
    {
      wheel.Valid() && counter < UINT32_MAX
    }

    ghost function Model(): Game
      reads this, wheel
    {
      Game(counter, contexts, keys, wheel.flat, dispatching, queued)
    }

    constructor (now: nat, point: nat)
      ensures Valid() && Model() == INITIAL && !locked && currentPoint == point && current == now
      ensures fresh(wheel) && fresh(wheel.near) && fresh(wheel.levels)
    {
      counter, contexts, keys, dispatching, queued := 0, map[], map[], [], [];
      locked, current, currentPoint := false, now, point;
      wheel := new Wheel();
    }

    /** _RemoveTimerHandle. */
    method RemoveTimerHandle(handle: nat)
      modifies this`contexts, this`keys
      ensures Model() == Drop(old(Model()), handle)
    {
      while handle in contexts
        invariant Model() == old(Model()) || (handle !in contexts && Model() == Drop(old(Model()), handle))
        decreases contexts.Keys
      {
        keys := keys - {contexts[handle].key};
        contexts := contexts - {handle};
      }
    }

    /** _GenerateHandleID: the next free handle in cyclic order over 1 .. 2^32 - 2,
        found whenever one is free. */
    method GenerateHandleID() returns (h: nat)
      requires counter < UINT32_MAX
      requires exists u :: 1 <= u < UINT32_MAX && u !in contexts
      modifies this`counter
      ensures 1 <= h < UINT32_MAX && h !in contexts && counter == h
      ensures old(counter) + 1 < UINT32_MAX && old(counter) + 1 !in contexts ==> h == old(counter) + 1
      ensures forall k :: old(counter) < k < h ==> k in contexts
      ensures h <= old(counter) ==> forall k :: 1 <= k < h || old(counter) < k < UINT32_MAX ==> k in contexts
    {
      ghost var u :| 1 <= u < UINT32_MAX && u !in contexts;
      counter := counter + 1;
      while counter in contexts || counter >= UINT32_MAX
        invariant 1 <= counter <= UINT32_MAX
        invariant old(counter) < counter ==> forall k :: old(counter) < k < counter ==> k in contexts
        invariant counter <= old(counter) ==>
          forall k :: 1 <= k < counter || old(counter) < k < UINT32_MAX ==> k in contexts
        decreases if counter <= u then u - counter else UINT32_MAX - counter + u + 1
      {
        if counter >= UINT32_MAX { counter := 0; }
        counter := counter + 1;
      }
      h := counter;
    }

    /** The part of AddTimer that runs under the lock, up to the wheel. */
    method Register(key: string, callback: nat, queue: nat) returns (h: nat)
      requires counter < UINT32_MAX && |key| <= MAX_KEY
      requires exists u :: 1 <= u < UINT32_MAX && u !in contexts
      modifies this`counter, this`contexts, this`keys
      ensures 1 <= counter < UINT32_MAX && h == counter && counter !in WithoutKey(old(Model()), key).contexts
      ensures old(counter) + 1 < UINT32_MAX && old(counter) + 1 !in old(contexts) ==> counter == old(counter) + 1
      ensures Model() == R.AddTimer(old(Model()), key, counter, 0, callback, queue).(flat := wheel.flat)
    {
      ghost var u :| 1 <= u < UINT32_MAX && u !in contexts;
      if key in keys { RemoveTimerHandle(keys[key]); }
      assert u !in contexts;
      h := GenerateHandleID();
      contexts := contexts[h := Context(h, CString(key), callback, queue)];
      if key !in keys { keys := keys[key := h]; }
    }

    /** AddTimer on a string key. */
    method AddTimer(key: string, delay: int, callback: nat, queue: nat) returns (r: Outcome)
      requires Valid() && !locked && delay < HALF
      requires exists u :: 1 <= u < UINT32_MAX && u !in contexts
      modifies this, wheel, wheel.near, wheel.levels
      ensures Valid() && current == old(current) && currentPoint == old(currentPoint)
      ensures if |key| > MAX_KEY then r == Done(-2) && !locked && Model() == old(Model())
              else if delay <= 0 then r == Blocked && locked
              else r == Done(0) && !locked && 1 <= counter < UINT32_MAX && counter !in WithoutKey(old(Model()), key).contexts
                   && Model() == R.AddTimer(old(Model()), key, counter, delay, callback, queue)
      ensures |key| <= MAX_KEY && old(counter) + 1 < UINT32_MAX && old(counter) + 1 !in old(contexts) ==> counter == old(counter) + 1
    {
      hide Wheel.Valid, WithoutKey;
      if MAX_KEY < |key| { return Done(-2); }
      ghost var u :| 1 <= u < UINT32_MAX && u !in contexts;
      locked := true;
      assert u !in contexts;
      var h := Register(key, callback, queue);
      if delay <= 0 { return Blocked; }
      wheel.TimerAdd(h, delay);
      locked := false;
      return Done(0);
    }

    /** RemoveTimer on a string key. */
    method RemoveTimer(key: string) returns (code: int)
      requires Valid() && !locked
      modifies this
      ensures Valid() && !locked && current == old(current) && currentPoint == old(currentPoint)
      ensures code == (if |key| > MAX_KEY then -2 else 0) && Model() == R.RemoveTimer(old(Model()), key)
    {
      if MAX_KEY < |key| { return -2; }
      locked := true;
      if key in keys { RemoveTimerHandle(keys[key]); }
      keys := keys - {key};
      locked := false;
      return 0;
    }

    /** TimerTimeout for the head of the detached list. */
    method TimerTimeout()
      requires Valid() && !locked && dispatching != []
      modifies this
      ensures Valid() && !locked && current == old(current) && currentPoint == old(currentPoint)
      ensures Model() == Timeout(old(Model()))
    {
      var handle := dispatching[0];
      locked := true;
      if handle in contexts { queued := queued + [contexts[handle]]; }
      RemoveTimerHandle(handle);
      locked := false;
      dispatching := dispatching[1..];
    }

    /** timer_update: shift, detach the due list, and dispatch it. */
    method Update()
      requires Valid() && !locked && dispatching == []
      modifies this, wheel, wheel.near, wheel.levels
      ensures Valid() && !locked && dispatching == [] && current == old(current) && currentPoint == old(currentPoint)
      ensures Model() == UpdateOnce(old(Model()))
    {
      hide Wheel.Valid;
      ghost var g := TickStep(Model());
      var early, fired := wheel.TimerUpdate();
      assert early + fired == fired;
      dispatching := early + fired;
      assert Model() == g;
      while dispatching != []
        invariant Valid() && !locked && current == old(current) && currentPoint == old(currentPoint)
        invariant DispatchAll(Model()) == DispatchAll(g)
        decreases |dispatching|
      {
        TimerTimeout();
      }
    }

    /** GameTimer::TimerUpdate at monotonic time `point`, in centiseconds. */
    method TimerUpdate(point: nat)
      requires Valid() && !locked && dispatching == []
      modifies this, wheel, wheel.near, wheel.levels
      ensures Valid() && !locked && dispatching == [] && currentPoint == point
      ensures Model() == UpdateMany(old(Model()), Elapsed(old(currentPoint), point))
      ensures current == old(current) + Elapsed(old(currentPoint), point)
    {
      hide Wheel.Valid, UpdateOnce;
      if point < currentPoint {
        currentPoint := point;
      } else if point != currentPoint {
        var diff := (point - currentPoint) % WRAP;
        currentPoint := point;
        current := current + diff;
        var i := 0;
        while i < diff
          invariant 0 <= i <= diff
          invariant Valid() && !locked && dispatching == [] && currentPoint == point && current == old(current) + diff
          invariant Model() == UpdateMany(old(Model()), i)
        {
          Update();
          i := i + 1;
        }
      }
    }
  }

  /** What AddTimer drops before it looks for a handle. */
  ghost function WithoutKey(g: Game, key: string): Game { if key in g.keys then Drop(g, g.keys[key]) else g }

  ghost function DispatchAll(g: Game): Game
    decreases |g.dispatching|
  {
    if g.dispatching == [] then g else DispatchAll(Timeout(g))
  }

  ghost function UpdateOnce(g: Game): Game { DispatchAll(TickStep(g)) }

  ghost function UpdateMany(g: Game, n: nat): Game {
    if n == 0 then g else UpdateOnce(UpdateMany(g, n - 1))
  }

  /** The 32-bit number of centiseconds TimerUpdate works off. */
  ghost function Elapsed(from: nat, to: nat): nat { if to < from then 0 else (to - from) % WRAP }

  lemma {:induction false} DispatchClock(g: Game)
    ensures DispatchAll(g).flat == g.flat
    decreases |g.dispatching|
  {
    if g.dispatching != [] { DispatchClock(Timeout(g)); }
  }

  lemma {:induction false} UpdateClock(g: Game, n: nat)
    ensures UpdateMany(g, n).flat.now == g.flat.now + n
  {
    if n > 0 {
      UpdateClock(g, n - 1);
      DispatchClock(TickStep(UpdateMany(g, n - 1)));
    }
  }

  /** One shift per elapsed centisecond, as long as the gap fits 32 bits. */
  lemma OneShiftPerCentisecond(g: Game, from: nat, to: nat)
    requires from <= to
    ensures UpdateMany(g, Elapsed(from, to)).flat.now == g.flat.now + (to - from) <==> to - from < WRAP
  {
    UpdateClock(g, Elapsed(from, to));
  }

  // ---- runs of the timer ----------------------------------------------------------------------

  /** A call from an application thread, or TimerUpdate at a time point. */
  datatype Call = Begin(key: string, delay: nat, callback: nat, queue: nat) | Cease(key: string) | Update(point: nat)

  /** The registry after some calls, what became of each handle, and the last time point. */
  datatype World = World(game: Game, fate: Fate, point: nat)

  ghost predicate Legal(c: Call) {
    c.Begin? ==> '\0' !in c.key && 1 <= c.delay < HALF
  }

  ghost function Played(w: World, c: Call): World {
    match c
    case Begin(key, delay, callback, queue) =>
      w.(game := R.AddTimer(w.game, key, w.game.counter + 1, delay, callback, queue),
         fate := ExecFate(w.game, w.fate, R.Start(key, delay, callback, queue)))
    case Cease(key) => w.(game := R.RemoveTimer(w.game, key), fate := ExecFate(w.game, w.fate, R.Stop(key)))
    case Update(point) => w.(game := UpdateMany(w.game, Elapsed(w.point, point)), point := point)
  }

  ghost function WorldAfter(calls: seq<Call>, point: nat): World {
    if calls == [] then World(INITIAL, Fate(map[], {}, map[]), point)
    else Played(WorldAfter(calls[..|calls| - 1], point), calls[|calls| - 1])
  }

  /** A run of registry steps that ends in a given world, between two calls. */
  datatype Run = Run(games: seq<Game>, fates: seq<Fate>, steps: seq<R.Step>)

  ghost predicate EndsIn(r: Run, g: Game, f: Fate) {
    IsRun(r.games, r.fates, r.steps) && r.games[|r.steps|] == g && r.fates[|r.steps|] == f
  }

  lemma Extend(r: Run, g: Game, f: Fate, s: R.Step) returns (t: Run)
    requires EndsIn(r, g, f) && Enabled(g, s)
    ensures EndsIn(t, Exec(g, s), ExecFate(g, f, s))
  {
    hide Exec, ExecFate, Enabled;
    t := Run(r.games + [Exec(g, s)], r.fates + [ExecFate(g, f, s)], r.steps + [s]);
  }

  lemma {:induction false} DispatchRun(r: Run, g: Game, f: Fate) returns (t: Run)
    requires EndsIn(r, g, f)
    ensures EndsIn(t, DispatchAll(g), f) && DispatchAll(g).dispatching == []
    decreases |g.dispatching|
  {
    hide EndsIn;
    t := r;
    if g.dispatching != [] {
      t := Extend(r, g, f, R.Next);
      t := DispatchRun(t, Timeout(g), f);
    }
  }

  lemma {:induction false} UpdateRun(r: Run, g: Game, f: Fate, n: nat) returns (t: Run)
    requires EndsIn(r, g, f) && g.dispatching == []
    ensures EndsIn(t, UpdateMany(g, n), f) && UpdateMany(g, n).dispatching == [] && UpdateMany(g, n).counter == g.counter
  {
    hide EndsIn, TickStep;
    t := r;
    if n > 0 {
      t := UpdateRun(r, g, f, n - 1);
      t := Extend(t, UpdateMany(g, n - 1), f, R.Tick1);
      t := DispatchRun(t, TickStep(UpdateMany(g, n - 1)), f);
      DispatchCounter(TickStep(UpdateMany(g, n - 1)));
      TickCounter(UpdateMany(g, n - 1));
    }
  }

  lemma TickCounter(g: Game)
    ensures TickStep(g).counter == g.counter
  { }

  lemma {:induction false} DispatchCounter(g: Game)
    ensures DispatchAll(g).counter == g.counter
    decreases |g.dispatching|
  {
    if g.dispatching != [] { DispatchCounter(Timeout(g)); }
  }

  lemma CallRun(r: Run, w: World, c: Call) returns (t: Run)
    requires EndsIn(r, w.game, w.fate) && w.game.dispatching == [] && w.game.counter + 1 < UINT32_MAX && Legal(c)
    ensures var v := Played(w, c);
      EndsIn(t, v.game, v.fate) && v.game.dispatching == [] && v.game.counter <= w.game.counter + 1
  {
    hide EndsIn, ExecFate, UpdateMany, Elapsed, R.AddTimer, R.RemoveTimer;
    match c
    case Begin(key, delay, callback, queue) =>
      t := Extend(r, w.game, w.fate, R.Start(key, delay, callback, queue));
      AddCounter(w.game, key, delay, callback, queue);
    case Cease(key) =>
      t := Extend(r, w.game, w.fate, R.Stop(key));
      RemoveCounter(w.game, key);
    case Update(p) =>
      t := UpdateRun(r, w.game, w.fate, Elapsed(w.point, p));
  }

  /** Any sequence of calls is a run of the registry, so everything proved of runs holds. */
  lemma {:induction false} CallsRun(calls: seq<Call>, point: nat) returns (t: Run)
    requires |calls| + 1 < UINT32_MAX && forall i :: 0 <= i < |calls| ==> Legal(calls[i])
    ensures var w := WorldAfter(calls, point); EndsIn(t, w.game, w.fate) && w.game.dispatching == [] && w.game.counter <= |calls|
  {
    hide Legal, Played, EndsIn;
    if calls == [] {
      t := FirstRun();
    } else {
      var n := |calls| - 1;
      t := CallsRun(calls[..n], point);
      t := CallRun(t, WorldAfter(calls[..n], point), calls[n]);
    }
  }

  lemma FirstRun() returns (t: Run)
    ensures EndsIn(t, INITIAL, Fate(map[], {}, map[]))
  {
    t := Run([INITIAL], [Fate(map[], {}, map[])], []);
  }

  lemma AddCounter(g: Game, key: string, delay: nat, callback: nat, queue: nat)
    ensures var r := R.AddTimer(g, key, g.counter + 1, delay, callback, queue);
      r.counter <= g.counter + 1 && r.dispatching == g.dispatching
  { }

  lemma RemoveCounter(g: Game, key: string)
    ensures R.RemoveTimer(g, key).counter == g.counter && R.RemoveTimer(g, key).dispatching == g.dispatching
  { }

  /** After any calls: a timer is in a queue exactly if it is due and was not taken back, once, with
      the key, callback and queue it was added with; and the queues were filled in the order the
      timers were due, those of one tick in the order they were added. */
  ghost predicate Settled(g: Game, f: Fate) {
    && (forall i :: 0 <= i < |g.queued| ==>
          g.queued[i].handle in f.asked && g.queued[i] == ContextOf(g.queued[i].handle, f.asked[g.queued[i].handle]))
    && (forall i, j :: 0 <= i < j < |g.queued| ==>
          g.queued[i].handle != g.queued[j].handle && Earlier(f, g.queued[i].handle, g.queued[j].handle))
    && forall h :: h in f.deadline ==> (WasQueued(g, h) <==> h !in f.cancelled && f.deadline[h] <= g.flat.now)
  }

  lemma CallsSettled(calls: seq<Call>, point: nat)
    requires |calls| + 1 < UINT32_MAX && forall i :: 0 <= i < |calls| ==> Legal(calls[i])
    ensures var w := WorldAfter(calls, point); Settled(w.game, w.fate) && R.Inv(w.game, w.fate)
  {
    hide R.Inv, WorldAfter, Truthful, Sorted;
    var t := CallsRun(calls, point);
    var w := WorldAfter(calls, point);
    RunInv(t.games, t.fates, t.steps, |t.steps|);
    RunSorted(t.games, t.fates, t.steps, |t.steps|);
    QueueSettled(w.game, w.fate);
    forall h | h in w.fate.deadline
      ensures WasQueued(w.game, h) <==> h !in w.fate.cancelled && w.fate.deadline[h] <= w.game.flat.now
    {
      HandleSettled(w.game, w.fate, h);
      if WasQueued(w.game, h) { QueuedNotEarly(t.games, t.fates, t.steps, |t.steps|, h); }
    }
  }

  lemma QueueSettled(g: Game, f: Fate)
    requires R.Inv(g, f) && Truthful(g, f) && Sorted(g, f)
    ensures forall i :: 0 <= i < |g.queued| ==>
      g.queued[i].handle in f.asked && g.queued[i] == ContextOf(g.queued[i].handle, f.asked[g.queued[i].handle])
    ensures forall i, j :: 0 <= i < j < |g.queued| ==>
      g.queued[i].handle != g.queued[j].handle && Earlier(f, g.queued[i].handle, g.queued[j].handle)
  {
    hide Inverse, Scheduled, AllComing;
    forall i, j | 0 <= i < j < |g.queued| ensures g.queued[i].handle != g.queued[j].handle {
      QueuedOnceMeans(g.queued, i, j);
    }
  }

  lemma HandleSettled(g: Game, f: Fate, h: nat)
    requires R.Inv(g, f) && g.dispatching == [] && h in f.deadline
    ensures WasQueued(g, h) ==> h !in f.cancelled
    ensures h !in f.cancelled && f.deadline[h] <= g.flat.now ==> WasQueued(g, h)
  {
    if h in g.contexts { assert Coming(g, f, h); }
  }

  /** Any sequence of calls on a new timer. */
  method RunTimer(calls: seq<Call>, now: nat, point: nat) returns (t: GameTimer)
    requires |calls| + 1 < UINT32_MAX && forall i :: 0 <= i < |calls| ==> Legal(calls[i])
    ensures t.Valid() && !t.locked && t.Model() == WorldAfter(calls, point).game
    ensures Settled(t.Model(), WorldAfter(calls, point).fate)
  {
    hide Settled, Wheel.Valid, Played, Legal, R.Inv;
    t := new GameTimer(now, point);
    assert calls[..0] == [];
    for n := 0 to |calls|
      invariant fresh(t) && fresh(t.wheel) && fresh(t.wheel.near) && fresh(t.wheel.levels) && t.Valid() && !t.locked
      invariant t.Model() == WorldAfter(calls[..n], point).game && t.currentPoint == WorldAfter(calls[..n], point).point
    {
      assert calls[..n + 1][..n] == calls[..n] && calls[..n + 1][n] == calls[n];
      PlayCall(t, calls[n], calls[..n], point);
    }
    assert calls[..|calls|] == calls;
    CallsSettled(calls, point);
  }

  method PlayCall(t: GameTimer, c: Call, ghost before: seq<Call>, ghost point: nat)
    requires |before| + 2 < UINT32_MAX && (forall i :: 0 <= i < |before| ==> Legal(before[i])) && Legal(c)
    requires t.Valid() && !t.locked
    requires t.Model() == WorldAfter(before, point).game && t.currentPoint == WorldAfter(before, point).point
    modifies t, t.wheel, t.wheel.near, t.wheel.levels
    ensures t.Valid() && !t.locked
    ensures World(t.Model(), Played(WorldAfter(before, point), c).fate, t.currentPoint) == Played(WorldAfter(before, point), c)
  {
    hide Wheel.Valid, WorldAfter;
    ghost var w := WorldAfter(before, point);
    NextFree(before, point);
    match c
    case Begin(key, delay, callback, queue) => var r := t.AddTimer(key, delay, callback, queue);
    case Cease(key) => var code := t.RemoveTimer(key);
    case Update(p) => t.TimerUpdate(p);
  }

  lemma NextFree(calls: seq<Call>, point: nat)
    requires |calls| + 2 < UINT32_MAX && forall i :: 0 <= i < |calls| ==> Legal(calls[i])
    ensures var g := WorldAfter(calls, point).game;
      g.counter + 1 < UINT32_MAX && g.counter + 1 !in g.contexts && g.dispatching == []
  {
    var t := CallsRun(calls, point);
    RunInv(t.games, t.fates, t.steps, |t.steps|);
  }
}
