/** The simple thing the timing wheel speeds up: a list of pending timers in the
    order they were added, each with an absolute deadline in unbounded ticks. */
module FlatTimers {

  /** What a timer node carries: the handle of its timer. */
  type Event = nat

  datatype Entry = Entry(deadline: nat, event: Event)
  datatype Flat = Flat(now: nat, pending: seq<Entry>)

  function Add(f: Flat, delay: nat, event: Event): Flat {
    f.(pending := f.pending + [Entry(f.now + delay, event)])
  }

  /** Events with deadline `k`, in the order added. */
  function Due(p: seq<Entry>, k: nat): seq<Event> {
    if p == [] then [] else
      var x := p[|p| - 1];
      if x.deadline == k then Due(p[..|p| - 1], k) + [x.event] else Due(p[..|p| - 1], k)
  }

  /** Entries with a deadline after `k`, in the order added. */
  function After(p: seq<Entry>, k: nat): seq<Entry> {
    if p == [] then [] else
      var x := p[|p| - 1];
      if x.deadline > k then After(p[..|p| - 1], k) + [x] else After(p[..|p| - 1], k)
  }

  function Tick(f: Flat): Flat { Flat(f.now + 1, After(f.pending, f.now + 1)) }

  // ---- whole runs -------------------------------------------------------

  datatype Op = Start(delay: nat, event: Event) | Advance

  function Ticks(ops: seq<Op>): nat {
    if ops == [] then 0 else
      Ticks(ops[..|ops| - 1]) + (if ops[|ops| - 1].Advance? then 1 else 0)
  }

  /** Every timer started in a run, with the tick it has to fire at. */
  function Started(ops: seq<Op>): seq<Entry> {
    if ops == [] then [] else
      var before := ops[..|ops| - 1];
      var op := ops[|ops| - 1];
      if op.Start? then Started(before) + [Entry(Ticks(before) + op.delay, op.event)] else Started(before)
  }

  /** Deadlines of a run are all in the future of the tick they were set at. */
  ghost predicate Legal(ops: seq<Op>, limit: nat) {
    forall i :: 0 <= i < |ops| && ops[i].Start? ==> 1 <= ops[i].delay < limit
  }

  function StateAfter(ops: seq<Op>): Flat { Flat(Ticks(ops), After(Started(ops), Ticks(ops))) }

  lemma AdvanceNext(ops: seq<Op>)
    ensures Ticks(ops + [Advance]) == Ticks(ops) + 1
    ensures Started(ops + [Advance]) == Started(ops)
    ensures StateAfter(ops + [Advance]) == Tick(StateAfter(ops))
    ensures Due(StateAfter(ops).pending, Ticks(ops) + 1) == Due(Started(ops), Ticks(ops) + 1)
  {
    var next := ops + [Advance];
    assert next[..|ops|] == ops && next[|ops|] == Advance;
    assert Started(next) == Started(ops);
    AfterAfter(Started(ops), Ticks(ops));
  }

  lemma {:induction false} AfterAfter(p: seq<Entry>, k: nat)
    ensures After(After(p, k), k + 1) == After(p, k + 1)
    ensures Due(After(p, k), k + 1) == Due(p, k + 1)
  {
    if p != [] {
      var q, x := p[..|p| - 1], p[|p| - 1];
      AfterAfter(q, k);
      if x.deadline > k { assert (After(q, k) + [x])[..|After(q, k)|] == After(q, k); }
    }
  }

  lemma {:induction false} AllAfter(p: seq<Entry>, k: nat)
    requires forall i :: 0 <= i < |p| ==> p[i].deadline > k
    ensures After(p, k) == p
    ensures Due(p, k) == []
  {
    if p != [] { AllAfter(p[..|p| - 1], k); }
  }

  // ---- every timer fires exactly once --------------------------------------

  function EventsOf(p: seq<Entry>): seq<Event> {
    if p == [] then [] else EventsOf(p[..|p| - 1]) + [p[|p| - 1].event]
  }

  /** Everything fired at ticks 1 .. n. */
  function FiredBy(p: seq<Entry>, n: nat): seq<Event> {
    if n == 0 then [] else FiredBy(p, n - 1) + Due(p, n)
  }

  lemma {:induction false} TickSplits(p: seq<Entry>, k: nat)
    ensures multiset(EventsOf(After(p, k))) == multiset(Due(p, k + 1)) + multiset(EventsOf(After(p, k + 1)))
  {
    if p != [] {
      var q, x := p[..|p| - 1], p[|p| - 1];
      TickSplits(q, k);
      assert (After(q, k) + [x])[..|After(q, k)|] == After(q, k);
      assert (After(q, k + 1) + [x])[..|After(q, k + 1)|] == After(q, k + 1);
    }
  }

  lemma Regroup(all: multiset<Event>, fired: seq<Event>, due: seq<Event>, before: multiset<Event>, after: multiset<Event>)
    requires all == multiset(fired) + before && before == multiset(due) + after
    ensures all == multiset(fired + due) + after
  { }

  ghost predicate Conserved(p: seq<Entry>, n: nat) {
    multiset(EventsOf(p)) == multiset(FiredBy(p, n)) + multiset(EventsOf(After(p, n)))
  }

  lemma ConservedNext(p: seq<Entry>, n: nat)
    requires Conserved(p, n)
    ensures Conserved(p, n + 1)
  {
    TickSplits(p, n);
    Regroup(multiset(EventsOf(p)), FiredBy(p, n), Due(p, n + 1),
            multiset(EventsOf(After(p, n))), multiset(EventsOf(After(p, n + 1))));
  }

  lemma NoneFired(p: seq<Entry>)
    requires forall i :: 0 <= i < |p| ==> p[i].deadline > 0
    ensures Conserved(p, 0)
  {
    hide EventsOf, After;
    AllAfter(p, 0);
    assert FiredBy(p, 0) == [];
  }

  /** Conservation: what was started has fired once or is still pending. */
  lemma {:induction false} FiredOnce(p: seq<Entry>, n: nat)
    requires forall i :: 0 <= i < |p| ==> p[i].deadline > 0
    ensures Conserved(p, n)
  {
    hide *;
    if n == 0 {
      NoneFired(p);
    } else {
      FiredOnce(p, n - 1);
      ConservedNext(p, n - 1);
    }
  }

  // ---- the order of firing ---------------------------------------------------

  predicate Increasing(ix: seq<nat>) { forall i, j :: 0 <= i < j < |ix| ==> ix[i] < ix[j] }

  /** The events due at one tick are those of the entries with that deadline, in list order. */
  lemma {:induction false} DueOrder(p: seq<Entry>, k: nat) returns (ix: seq<nat>)
    ensures |ix| == |Due(p, k)| && Increasing(ix)
    ensures forall j :: 0 <= j < |ix| ==> ix[j] < |p| && p[ix[j]] == Entry(k, Due(p, k)[j])
    ensures forall i :: 0 <= i < |p| && p[i].deadline == k ==> i in ix
  {
    if p == [] {
      ix := [];
    } else {
      var n := |p| - 1;
      ix := DueOrder(p[..n], k);
      if p[n].deadline == k { ix := ix + [n]; }
      forall i | 0 <= i < |p| && p[i].deadline == k ensures i in ix {
        if i < n { assert p[..n][i] == p[i]; } else { assert ix[|ix| - 1] == n; }
      }
    }
  }

  /** Operation i starts a timer for tick k. */
  predicate StartsFor(ops: seq<Op>, i: nat, k: nat)
    requires i < |ops|
  {
    ops[i].Start? && Ticks(ops[..i]) + ops[i].delay == k
  }

  /** Operation i starts the timer x. */
  predicate Starts(ops: seq<Op>, i: nat, x: Entry) { i < |ops| && StartsFor(ops, i, x.deadline) && ops[i].event == x.event }

  lemma StartsStill(ops: seq<Op>, n: nat, i: nat, x: Entry)
    requires n <= |ops| && Starts(ops[..n], i, x)
    ensures Starts(ops, i, x)
  {
    assert ops[..n][..i] == ops[..i];
  }

  lemma StartsLast(ops: seq<Op>)
    requires ops != [] && ops[|ops| - 1].Start?
    ensures Started(ops) != [] && Started(ops)[..|Started(ops)| - 1] == Started(ops[..|ops| - 1])
    ensures Starts(ops, |ops| - 1, Started(ops)[|Started(ops)| - 1])
  { }

  /** The timers of a run are those of its additions, in their order. */
  lemma {:induction false} StartedOrder(ops: seq<Op>) returns (ix: seq<nat>)
    ensures |ix| == |Started(ops)| && Increasing(ix)
    ensures forall j :: 0 <= j < |ix| ==> ix[j] < |ops| && Starts(ops, ix[j], Started(ops)[j])
    ensures forall i :: 0 <= i < |ops| && ops[i].Start? ==> i in ix
  {
    hide Starts, Ticks;
    ix := [];
    if ops != [] {
      var n := |ops| - 1;
      var before := StartedOrder(ops[..n]);
      forall i | 0 <= i < n && ops[i].Start? ensures i in before { assert ops[..n][i] == ops[i]; }
      forall j | 0 <= j < |before| ensures Starts(ops, before[j], Started(ops[..n])[j]) {
        StartsStill(ops, n, before[j], Started(ops[..n])[j]);
      }
      ix := before;
      if ops[n].Start? {
        StartsLast(ops);
        ix := before + [n];
        assert ix[|ix| - 1] == n;
      }
    }
  }

  /** `fired` are the events of exactly the additions for tick k, in the order of the additions. */
  ghost predicate Picks(fired: seq<Event>, ops: seq<Op>, k: nat, ix: seq<nat>) {
    && |ix| == |fired| && Increasing(ix)
    && (forall j :: 0 <= j < |ix| ==> ix[j] < |ops| && StartsFor(ops, ix[j], k) && fired[j] == ops[ix[j]].event)
    && (forall i :: 0 <= i < |ops| && StartsFor(ops, i, k) ==> i in ix)
  }

  ghost predicate InOrder(fired: seq<Event>, ops: seq<Op>, k: nat) { exists ix :: Picks(fired, ops, k, ix) }

  lemma StartsOnce(ops: seq<Op>, i: nat, x: Entry, k: nat)
    requires Starts(ops, i, x)
    ensures StartsFor(ops, i, k) <==> x.deadline == k
    ensures ops[i].Start? && ops[i].event == x.event
  { }

  lemma DueInOrder(ops: seq<Op>, k: nat)
    ensures InOrder(Due(Started(ops), k), ops, k)
  {
    hide Due, Started, Ticks, Starts;
    var p := Started(ops);
    var a := StartedOrder(ops);
    var b := DueOrder(p, k);
    var ix := seq(|b|, j requires 0 <= j < |b| => a[b[j]]);
    forall j | 0 <= j < |ix| ensures ix[j] < |ops| && StartsFor(ops, ix[j], k) && Due(p, k)[j] == ops[ix[j]].event {
      StartsOnce(ops, ix[j], p[b[j]], k);
    }
    forall i | 0 <= i < |ops| && StartsFor(ops, i, k) ensures i in ix {
      var m :| 0 <= m < |a| && a[m] == i;
      StartsOnce(ops, i, p[m], k);
      var j :| 0 <= j < |b| && b[j] == m;
      assert ix[j] == i;
    }
    assert Picks(Due(p, k), ops, k, ix);
  }
}
