/** How threads number their allocations (reserve_id in network/socket/socket_server.c): an
    atomic increment of alloc_id and, if the result is negative, an atomic masking of the sign.
    The two are separate steps, so threads can meet at the signed end. */
module AllocIds {
  const SIGN: nat := 0x8000_0000

  /** `word` is alloc_id as 32 unsigned bits, `waiting` the threads that saw a negative number and
      have not masked it yet, `ids` the identifiers handed out so far. */
  datatype State = State(word: nat, waiting: set<nat>, ids: seq<nat>)

  datatype Act = Increment(t: nat) | Mask(t: nat)

  /** A thread does one thing at a time, and fewer than 2^31 threads wait at once. */
  predicate Ready(s: State, a: Act) {
    match a
    case Increment(t) => t !in s.waiting && s.word + 1 < 2 * SIGN
    case Mask(t) => t in s.waiting
  }

  function Do(s: State, a: Act): State
    requires Ready(s, a)
  {
    match a
    case Increment(t) =>
      if s.word + 1 < SIGN then s.(word := s.word + 1, ids := s.ids + [s.word + 1])
      else s.(word := s.word + 1, waiting := s.waiting + {t})
    case Mask(t) => State(s.word % SIGN, s.waiting - {t}, s.ids + [s.word % SIGN])
  }

  ghost predicate IsRun(start: nat, states: seq<State>, acts: seq<Act>) {
    && |states| == |acts| + 1 && start < SIGN && states[0] == State(start, {}, [])
    && forall k :: 0 <= k < |acts| ==> Ready(states[k], acts[k]) && states[k + 1] == Do(states[k], acts[k])
  }

  /** No thread increments while another is between its two steps. */
  ghost predicate Alone(states: seq<State>, acts: seq<Act>) {
    |states| == |acts| + 1 && forall k :: 0 <= k < |acts| && acts[k].Increment? ==> states[k].waiting == {}
  }

  /** The identifiers count up modulo 2^31. */
  predicate InSequence(start: nat, ids: seq<nat>) {
    forall k :: 0 <= k < |ids| ==> ids[k] == (start + k + 1) % SIGN
  }

  // ---- threads that do not meet ------------------------------------------------------------

  /** At most one thread waits, and then the word is exactly the sign. */
  ghost predicate Orderly(start: nat, s: State) {
    && InSequence(start, s.ids)
    && if s.waiting == {} then s.word == (start + |s.ids|) % SIGN
       else s.word == SIGN && (start + |s.ids| + 1) % SIGN == 0 && exists t :: s.waiting == {t}
  }

  lemma NextMod(n: nat)
    ensures (n + 1) % SIGN == if n % SIGN + 1 < SIGN then n % SIGN + 1 else 0
  { }

  lemma OrderlyStep(start: nat, s: State, a: Act)
    requires Orderly(start, s) && Ready(s, a) && (a.Increment? ==> s.waiting == {})
    ensures Orderly(start, Do(s, a))
  {
    NextMod(start + |s.ids|);
    var r := Do(s, a);
    match a
    case Increment(t) => assert r.waiting == {} || r.waiting == {t};
    case Mask(t) => assert r.waiting == {};
  }

  lemma {:induction false} OrderlyRun(start: nat, states: seq<State>, acts: seq<Act>, n: nat)
    requires IsRun(start, states, acts) && Alone(states, acts) && n <= |acts|
    ensures Orderly(start, states[n])
  {
    hide Orderly, Ready, Do;
    if n == 0 {
      OrderlyFirst(start);
    } else {
      OrderlyRun(start, states, acts, n - 1);
      OrderlyStep(start, states[n - 1], acts[n - 1]);
    }
  }

  lemma OrderlyFirst(start: nat)
    requires start < SIGN
    ensures Orderly(start, State(start, {}, []))
  { }

  // ---- threads that meet ---------------------------------------------------------------------

  /** A thread still has to mask a word that is not negative any more, or two wait. */
  ghost predicate Tainted(s: State) {
    |s.waiting| >= 2 || (s.waiting != {} && s.word < SIGN)
  }

  /** Below the sign the word is the last identifier handed out. */
  predicate LastKnown(start: nat, s: State) {
    s.word < SIGN ==> if s.ids == [] then s.waiting == {} && s.word == start else s.ids[|s.ids| - 1] == s.word
  }

  /** Some identifier was handed out twice in a row. */
  ghost predicate Repeats(ids: seq<nat>) { exists k :: 0 <= k < |ids| - 1 && ids[k] == ids[k + 1] }

  lemma RepeatsGrow(ids: seq<nat>, id: nat)
    requires Repeats(ids)
    ensures Repeats(ids + [id])
  {
    var k :| 0 <= k < |ids| - 1 && ids[k] == ids[k + 1];
    assert (ids + [id])[k] == (ids + [id])[k + 1];
  }

  /** Masking a word that is not negative hands out the last identifier again. */
  lemma MaskRepeats(start: nat, s: State, t: nat)
    requires LastKnown(start, s) && t in s.waiting && s.word < SIGN
    ensures s.ids != [] && Do(s, Mask(t)).ids == s.ids + [s.ids[|s.ids| - 1]] && Repeats(Do(s, Mask(t)).ids)
  {
    var ids := Do(s, Mask(t)).ids;
    assert ids[|s.ids| - 1] == ids[|s.ids|];
  }

  lemma StepTainted(start: nat, s: State, a: Act)
    requires LastKnown(start, s) && Ready(s, a) && (s.word >= SIGN ==> s.waiting != {})
    ensures var r := Do(s, a); LastKnown(start, r) && (r.word >= SIGN ==> r.waiting != {})
    ensures a.Increment? && s.waiting != {} ==> Tainted(Do(s, a))
    ensures Tainted(s) ==> Tainted(Do(s, a)) || Repeats(Do(s, a).ids)
    ensures Repeats(s.ids) ==> Repeats(Do(s, a).ids)
  {
    var r := Do(s, a);
    if Repeats(s.ids) && r.ids != s.ids { RepeatsGrow(s.ids, r.ids[|s.ids|]); }
    match a
    case Increment(t) => if s.waiting != {} { Grows(s.waiting, t); }
    case Mask(t) => if s.word < SIGN { MaskRepeats(start, s, t); }
  }

  lemma Grows(w: set<nat>, t: nat)
    requires w != {} && t !in w
    ensures |w + {t}| >= 2
  {
    assert w <= w + {t} && |w + {t}| == |w| + 1;
  }

  lemma {:induction false} TaintedRun(start: nat, states: seq<State>, acts: seq<Act>, n: nat)
    requires IsRun(start, states, acts) && n <= |acts|
    ensures LastKnown(start, states[n]) && (states[n].word >= SIGN ==> states[n].waiting != {})
    ensures (exists k :: 0 <= k < n && acts[k].Increment? && states[k].waiting != {}) ==> Tainted(states[n]) || Repeats(states[n].ids)
  {
    hide Tainted, Repeats, Ready, Do;
    if n > 0 {
      TaintedRun(start, states, acts, n - 1);
      StepTainted(start, states[n - 1], acts[n - 1]);
    }
  }

  lemma RepeatsOutOfSequence(start: nat, ids: seq<nat>)
    requires Repeats(ids)
    ensures !InSequence(start, ids)
  {
    var k :| 0 <= k < |ids| - 1 && ids[k] == ids[k + 1];
    NextMod(start + k + 1);
  }

  /** In every run in which all threads have finished: the identifiers are the allocation numbers
      modulo 2^31 if and only if no thread incremented while another was between its steps;
      otherwise some identifier was handed out twice in a row. */
  lemma SequenceIffAlone(start: nat, states: seq<State>, acts: seq<Act>)
    requires IsRun(start, states, acts) && states[|acts|].waiting == {}
    ensures InSequence(start, states[|acts|].ids) <==> Alone(states, acts)
    ensures !Alone(states, acts) ==> Repeats(states[|acts|].ids)
  {
    hide Ready, Do, Repeats;
    if Alone(states, acts) {
      OrderlyRun(start, states, acts, |acts|);
    } else {
      TaintedRun(start, states, acts, |acts|);
      RepeatsOutOfSequence(start, states[|acts|].ids);
    }
  }

  /** Two threads at the signed end both get identifier 1. */
  lemma TwoAtTheEnd() returns (states: seq<State>, acts: seq<Act>)
    ensures IsRun(SIGN - 1, states, acts) && acts == [Increment(0), Increment(1), Mask(0), Mask(1)]
    ensures states[4] == State(1, {}, [1, 1])
  {
    acts := [Increment(0), Increment(1), Mask(0), Mask(1)];
    var s0 := State(SIGN - 1, {}, []);
    var s1 := Do(s0, acts[0]);
    var s2 := Do(s1, acts[1]);
    var s3 := Do(s2, acts[2]);
    states := [s0, s1, s2, s3, Do(s3, acts[3])];
    assert states[4].waiting == {};
  }
}
