/** What the calls on a game timer say about each of its handles: which call issued it, and which
    call, if any, took it back. */
module TimerStory {
  import opened TimerRegistry
  import opened GameTimers
  import opened WheelSlots

  predicate Accepts(c: Call) { c.Begin? && |c.key| <= MAX_KEY }

  /** Timers added so far. */
  function Accepted(calls: seq<Call>): nat {
    if calls == [] then 0 else Accepted(calls[..|calls| - 1]) + if Accepts(calls[|calls| - 1]) then 1 else 0
  }

  /** The call adds or removes a timer under this key. */
  predicate Names(c: Call, key: string) { (c.Begin? || c.Cease?) && c.key == key && |key| <= MAX_KEY }

  ghost predicate Fair(calls: seq<Call>) {
    |calls| + 1 < UINT32_MAX && forall i :: 0 <= i < |calls| ==> Legal(calls[i])
  }

  lemma WorldGood(calls: seq<Call>, point: nat)
    requires Fair(calls)
    ensures var w := WorldAfter(calls, point); Inv(w.game, w.fate) && Truthful(w.game, w.fate)
  {
    hide Inv, Truthful, Sorted, WorldAfter;
    var t := CallsRun(calls, point);
    RunInv(t.games, t.fates, t.steps, |t.steps|);
    RunSorted(t.games, t.fates, t.steps, |t.steps|);
  }

  lemma PlayedParts(w: World, c: Call)
    ensures Accepts(c) ==> Played(w, c).game.counter == w.game.counter + 1
    ensures Accepts(c) ==> Played(w, c).fate.asked == w.fate.asked[w.game.counter + 1 := Asked(c.key, c.callback, c.queue)]
    ensures Accepts(c) ==> Played(w, c).fate.deadline == w.fate.deadline[w.game.counter + 1 := w.game.flat.now + c.delay]
    ensures !Accepts(c) ==> Played(w, c).fate.asked == w.fate.asked && Played(w, c).fate.deadline == w.fate.deadline
    ensures !Accepts(c) && !c.Update? ==> Played(w, c).game.counter == w.game.counter
    ensures Played(w, c).fate.cancelled == w.fate.cancelled
      + if !c.Update? && |c.key| <= MAX_KEY && c.key in w.game.keys then {w.game.keys[c.key]} else {}
  {
    hide UpdateMany;
  }

  lemma {:induction false} UpdateCounter(g: Game, n: nat)
    ensures UpdateMany(g, n).counter == g.counter
  {
    if n > 0 {
      UpdateCounter(g, n - 1);
      DispatchCounter(TickStep(UpdateMany(g, n - 1)));
      TickCounter(UpdateMany(g, n - 1));
    }
  }

  lemma {:induction false} CounterIs(calls: seq<Call>, point: nat)
    ensures WorldAfter(calls, point).game.counter == Accepted(calls)
  {
    if calls != [] {
      var n := |calls| - 1;
      var w, c := WorldAfter(calls[..n], point), calls[n];
      CounterIs(calls[..n], point);
      hide UpdateMany, AddTimer, RemoveTimer, ExecFate;
      PlayedParts(w, c);
      if c.Update? { UpdateCounter(w.game, Elapsed(w.point, c.point)); }
    }
  }

  /** Handle h was issued by call i, the h-th addition that was accepted. */
  ghost predicate Issued(calls: seq<Call>, point: nat, h: nat, i: nat) {
    && i < |calls| && Accepts(calls[i]) && Accepted(calls[..i]) + 1 == h
    && var f := WorldAfter(calls, point).fate;
      && h in f.asked && f.asked[h] == Asked(calls[i].key, calls[i].callback, calls[i].queue)
      && h in f.deadline && f.deadline[h] == WorldAfter(calls[..i], point).game.flat.now + calls[i].delay
  }

  /** The handles are numbered by the accepted additions; each carries what its call asked for, and
      is due as many ticks after that call as it asked for. */
  lemma {:induction false} IssuedBy(calls: seq<Call>, point: nat, h: nat) returns (i: nat)
    requires Fair(calls) && h in WorldAfter(calls, point).fate.deadline
    ensures Issued(calls, point, h, i)
  {
    hide Played, Legal;
    var n := |calls| - 1;
    assert calls != [];
    var w, c := WorldAfter(calls[..n], point), calls[n];
    CounterIs(calls[..n], point);
    PlayedParts(w, c);
    if Accepts(c) && h == w.game.counter + 1 {
      i := n;
    } else {
      i := IssuedBy(calls[..n], point, h);
      assert calls[..n][..i] == calls[..i];
      WorldGood(calls[..n], point);
    }
  }

  /** A later call names its key while it has not been pushed. */
  ghost predicate TakenBack(calls: seq<Call>, point: nat, h: nat, i: nat, key: string) {
    exists j :: i < j < |calls| && NamedAt(calls, point, h, key, j)
  }

  ghost predicate NamedAt(calls: seq<Call>, point: nat, h: nat, key: string, j: nat)
    requires j < |calls|
  {
    Names(calls[j], key) && !WasQueued(WorldAfter(calls[..j], point).game, h)
  }

  lemma TakenBackNext(calls: seq<Call>, point: nat, h: nat, i: nat, key: string)
    requires calls != [] && i < |calls| - 1
    ensures var n := |calls| - 1;
      TakenBack(calls, point, h, i, key) <==> TakenBack(calls[..n], point, h, i, key) || NamedAt(calls, point, h, key, n)
  {
    hide WorldAfter, Names;
    var n := |calls| - 1;
    assert forall j :: 0 <= j < n ==> calls[..n][..j] == calls[..j];
    if TakenBack(calls[..n], point, h, i, key) {
      var j :| i < j < n && NamedAt(calls[..n], point, h, key, j);
      assert NamedAt(calls, point, h, key, j);
    }
    if TakenBack(calls, point, h, i, key) {
      var j :| i < j < |calls| && NamedAt(calls, point, h, key, j);
      if j < n { assert NamedAt(calls[..n], point, h, key, j); }
    }
  }

  /** The timer its key finds is the one added last under it, if that is neither pushed nor taken back. */
  lemma KeyFinds(g: Game, f: Fate, h: nat, key: string)
    requires Inv(g, f) && Truthful(g, f) && h in f.deadline
    ensures h in f.asked
    ensures key in g.keys && g.keys[key] == h <==> f.asked[h].key == key && h !in f.cancelled && !WasQueued(g, h)
  {
    hide Scheduled, AllComing;
  }

  /** A timer is taken back if and only if a later call names its key before it is pushed. */
  lemma {:induction false} CancelledIff(calls: seq<Call>, point: nat, h: nat, i: nat)
    requires Fair(calls) && Issued(calls, point, h, i)
    ensures h in WorldAfter(calls, point).fate.cancelled <==> TakenBack(calls, point, h, i, calls[i].key)
  {
    hide Played, Legal, Inv, Truthful, TakenBack;
    var n := |calls| - 1;
    var w, c := WorldAfter(calls[..n], point), calls[n];
    WorldGood(calls[..n], point);
    CounterIs(calls[..n], point);
    PlayedParts(w, c);
    if i == n {
      Newest(w.game, w.fate, h);
      NeverBack(calls, point, h, i, calls[i].key);
    } else {
      assert calls[..n][..i] == calls[..i];
      StillIssued(calls, point, h, i);
      CancelledIff(calls[..n], point, h, i);
      TakenBackNext(calls, point, h, i, calls[i].key);
      if !c.Update? && |c.key| <= MAX_KEY { KeyFinds(w.game, w.fate, h, c.key); }
    }
  }

  lemma NeverBack(calls: seq<Call>, point: nat, h: nat, i: nat, key: string)
    requires i == |calls| - 1
    ensures !TakenBack(calls, point, h, i, key)
  { }

  lemma Newest(g: Game, f: Fate, h: nat)
    requires Inv(g, f) && h == g.counter + 1
    ensures h !in f.cancelled && (forall k :: k in g.keys ==> g.keys[k] != h)
  {
    hide Scheduled, AllComing;
  }

  lemma {:induction false} AcceptedGrows(calls: seq<Call>, i: nat)
    requires i < |calls| && Accepts(calls[i])
    ensures Accepted(calls[..i]) + 1 <= Accepted(calls)
    decreases |calls|
  {
    var n := |calls| - 1;
    if i < n {
      assert calls[..n][..i] == calls[..i];
      AcceptedGrows(calls[..n], i);
    }
  }

  lemma StillIssued(calls: seq<Call>, point: nat, h: nat, i: nat)
    requires Fair(calls) && Issued(calls, point, h, i) && i < |calls| - 1
    ensures Issued(calls[..|calls| - 1], point, h, i)
  {
    hide Played, Legal;
    var n := |calls| - 1;
    var w, c := WorldAfter(calls[..n], point), calls[n];
    assert calls[..n][..i] == calls[..i];
    AcceptedGrows(calls[..n], i);
    CounterIs(calls[..n], point);
    PlayedParts(w, c);
    WorldGood(calls[..n], point);
  }

  // ---- the clock ------------------------------------------------------------------------------

  /** The time points of the updates, after the one at the start. */
  function Points(calls: seq<Call>, point: nat): (ps: seq<nat>)
    ensures ps != [] && ps[0] == point
  {
    if calls == [] then [point] else
      var c := calls[|calls| - 1];
      if c.Update? then Points(calls[..|calls| - 1], point) + [c.point] else Points(calls[..|calls| - 1], point)
  }

  /** By how much the time points went back in all. */
  function Back(ps: seq<nat>): nat {
    if |ps| < 2 then 0 else
      var a, b := ps[|ps| - 2], ps[|ps| - 1];
      Back(ps[..|ps| - 1]) + if b < a then a - b else 0
  }

  /** How much of their steps forward does not fit 32 bits. */
  function Lost(ps: seq<nat>): nat {
    if |ps| < 2 then 0 else
      var a, b := ps[|ps| - 2], ps[|ps| - 1];
      Lost(ps[..|ps| - 1]) + if b < a then 0 else (b - a) / WRAP * WRAP
  }

  lemma PlayedClock(w: World, c: Call)
    ensures !c.Update? ==> Played(w, c).game.flat.now == w.game.flat.now && Played(w, c).point == w.point
    ensures c.Update? ==> Played(w, c).point == c.point
    ensures c.Update? ==> Played(w, c).game.flat.now == w.game.flat.now + if c.point < w.point then 0 else (c.point - w.point) % WRAP
  {
    hide UpdateMany, ExecFate;
    if c.Update? { UpdateClock(w.game, Elapsed(w.point, c.point)); }
  }

  /** The timer's clock runs with the time points, but never back: it is ahead by all that they went
      back, and behind by what did not fit 32 bits. */
  lemma {:induction false} ClockDrift(calls: seq<Call>, point: nat)
    ensures var w, ps := WorldAfter(calls, point), Points(calls, point);
      w.point == ps[|ps| - 1] && w.game.flat.now + Lost(ps) == w.point - point + Back(ps)
  {
    if calls != [] {
      var n := |calls| - 1;
      var w, c, ps := WorldAfter(calls[..n], point), calls[n], Points(calls[..n], point);
      ClockDrift(calls[..n], point);
      hide Played;
      PlayedClock(w, c);
      if c.Update? {
        assert (ps + [c.point])[..|ps|] == ps;
      }
    }
  }
}
