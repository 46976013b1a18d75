/**
  * The identifier generator of common/utils/uuid.h: 25 bits of a microsecond clock, 5 bits of
  * the host, 5 bits of the server, 12 bits of a sequence number. The clock is a sequence of
  * readings, consumed one by one.
  */
module Snowflake {
  import opened Ring
  import PowerOfTwo

  const WINDOW: nat := 0x200_0000
  const SEQS: nat := 0x1000

  // ---- bits ------------------------------------------------------------------------------

  /** Bitwise and, or and left shift of unsigned numbers. */
  function And(a: nat, b: nat): nat {
    if a == 0 || b == 0 then 0 else 2 * And(a / 2, b / 2) + a % 2 * (b % 2)
  }

  function Or(a: nat, b: nat): nat {
    if a == 0 then b
    else if b == 0 then a
    else 2 * Or(a / 2, b / 2) + if a % 2 + b % 2 > 0 then 1 else 0
  }

  function Shl(a: nat, k: nat): nat { if k == 0 then a else 2 * Shl(a, k - 1) }

  lemma ModTwice(a: nat, p: nat)
    requires p > 0
    ensures a % (2 * p) == 2 * (a / 2 % p) + a % 2
  {
    var q, r := a / 2 / p, a / 2 % p;
    assert a / 2 == p * q + r;
    assert p * q * 2 == 2 * p * q;
    DivUnique(a, 2 * p, q, 2 * r + a % 2);
  }

  lemma AndNone(a: nat)
    ensures And(a, 0) == 0
  { }

  lemma AndStep(a: nat, p: nat)
    requires p > 0
    ensures And(a, 2 * p - 1) == 2 * And(a / 2, p - 1) + a % 2
  {
    assert (2 * p - 1) / 2 == p - 1 && (2 * p - 1) % 2 == 1;
  }

  /** Masking the lowest `k` bits is taking the remainder. */
  lemma {:induction false} MaskIsMod(a: nat, k: nat)
    ensures PowerOfTwo.Pow(k) > 0 && And(a, PowerOfTwo.Pow(k) - 1) == a % PowerOfTwo.Pow(k)
  {
    hide And;
    AndNone(a);
    if k > 0 {
      MaskIsMod(a / 2, k - 1);
      AndStep(a, PowerOfTwo.Pow(k - 1));
      ModTwice(a, PowerOfTwo.Pow(k - 1));
    }
  }

  lemma OrStep(a: nat, b: nat)
    ensures Or(2 * a, b) == 2 * Or(a, b / 2) + b % 2 && Or(a, 0) == a
  {
    assert 2 * a / 2 == a && 2 * a % 2 == 0;
  }

  /** Or-ing below the shifted bits adds. */
  lemma {:induction false} OrIsSum(a: nat, b: nat, k: nat)
    requires b < PowerOfTwo.Pow(k)
    ensures Or(Shl(a, k), b) == Shl(a, k) + b
  {
    hide Or;
    OrStep(a, b);
    if k > 0 {
      OrIsSum(a, b / 2, k - 1);
      OrStep(Shl(a, k - 1), b);
    }
  }

  lemma {:induction false} ShlIsTimes(a: nat, k: nat)
    ensures Shl(a, k) == a * PowerOfTwo.Pow(k)
  {
    if k > 0 { ShlIsTimes(a, k - 1); }
  }

  lemma Powers()
    ensures PowerOfTwo.Pow(5) == 32 && PowerOfTwo.Pow(12) == SEQS && PowerOfTwo.Pow(17) == 0x2_0000 && PowerOfTwo.Pow(22) == 0x40_0000 && PowerOfTwo.Pow(25) == WINDOW
  { }

  // ---- the identifier -------------------------------------------------------------------

  /** The expression GenerateSeqID returns. */
  function Identifier(time: nat, host: nat, server: nat, sequence: nat): nat {
    Or(Or(Or(Shl(And(time, 0x1FF_FFFF), 22), Shl(And(host, 0x1F), 17)), Shl(And(server, 0x1F), 12)), And(sequence, 0xFFF))
  }

  /** The four fields as digits of one number. */
  function Pack(time: nat, host: nat, server: nat, sequence: nat): nat {
    time % WINDOW * 0x40_0000 + host % 32 * 0x2_0000 + server % 32 * 0x1000 + sequence % SEQS
  }

  lemma Masks(time: nat, host: nat, server: nat, sequence: nat)
    ensures And(time, 0x1FF_FFFF) == time % WINDOW && And(host, 0x1F) == host % 32
    ensures And(server, 0x1F) == server % 32 && And(sequence, 0xFFF) == sequence % SEQS
  {
    hide And;
    Powers();
    MaskIsMod(time, 25);
    MaskIsMod(host, 5);
    MaskIsMod(server, 5);
    MaskIsMod(sequence, 12);
  }

  /** The masked and shifted fields do not overlap: the identifier is made of the four digits. */
  lemma IdentifierIsPack(time: nat, host: nat, server: nat, sequence: nat)
    ensures Identifier(time, host, server, sequence) == Pack(time, host, server, sequence)
  {
    hide And, Or, Shl, PowerOfTwo.Pow;
    Masks(time, host, server, sequence);
    Powers();
    var t, h, g, q := time % WINDOW, host % 32, server % 32, sequence % SEQS;
    ShlIsTimes(t, 22);
    ShlIsTimes(h, 17);
    ShlIsTimes(g, 12);
    OrIsSum(t, Shl(h, 17), 22);
    ShlIsTimes(32 * t + h, 17);
    OrIsSum(32 * t + h, Shl(g, 12), 17);
    ShlIsTimes(1024 * t + 32 * h + g, 12);
    OrIsSum(1024 * t + 32 * h + g, q, 12);
  }

  /** Where each field is found in the identifier. */
  lemma FieldsOf(time: nat, host: nat, server: nat, sequence: nat)
    ensures var id := Identifier(time, host, server, sequence);
      && id / 0x40_0000 == time % WINDOW && id / 0x2_0000 % 32 == host % 32
      && id / 0x1000 % 32 == server % 32 && id % 0x1000 == sequence % SEQS
  {
    hide Identifier;
    IdentifierIsPack(time, host, server, sequence);
    var t, h, g, q := time % WINDOW, host % 32, server % 32, sequence % SEQS;
    var id := ((t * 32 + h) * 32 + g) * 0x1000 + q;
    DivUnique(id, 0x40_0000, t, h * 0x2_0000 + g * 0x1000 + q);
    DivUnique(id, 0x2_0000, t * 32 + h, g * 0x1000 + q);
    DivUnique(id, 0x1000, (t * 32 + h) * 32 + g, q);
    DivUnique(t * 32 + h, 32, t, h);
    DivUnique((t * 32 + h) * 32 + g, 32, t * 32 + h, g);
  }

  /** Two identifiers are equal exactly if all four masked fields are. */
  lemma PackEqual(t: nat, h: nat, g: nat, q: nat, t': nat, h': nat, g': nat, q': nat)
    ensures Pack(t, h, g, q) == Pack(t', h', g', q') <==>
      t % WINDOW == t' % WINDOW && h % 32 == h' % 32 && g % 32 == g' % 32 && q % SEQS == q' % SEQS
  {
    Digits(t % WINDOW, h % 32, g % 32, q % SEQS, t' % WINDOW, h' % 32, g' % 32, q' % SEQS);
  }

  lemma Digits(t: nat, h: nat, g: nat, q: nat, t': nat, h': nat, g': nat, q': nat)
    requires h < 32 && g < 32 && q < SEQS && h' < 32 && g' < 32 && q' < SEQS
    ensures t * 0x40_0000 + h * 0x2_0000 + g * 0x1000 + q == t' * 0x40_0000 + h' * 0x2_0000 + g' * 0x1000 + q'
      <==> t == t' && h == h' && g == g' && q == q'
  { }

  // ---- the generator ---------------------------------------------------------------------

  datatype Stamp = Stamp(time: nat, sequence: nat)

  /** Lexicographic order. */
  predicate Before(a: Stamp, b: Stamp) {
    a.time < b.time || (a.time == b.time && a.sequence < b.sequence)
  }

  predicate NonDecreasing(clock: seq<nat>) { forall i, j :: 0 <= i < j < |clock| ==> clock[i] <= clock[j] }

  /** GenerateSeqID when the first reading is `now` and `later` the one that ends the waiting. */
  function NextStamp(s: Stamp, now: nat, later: nat): Stamp {
    if s.time == now then
      if (s.sequence + 1) % SEQS == 0 then Stamp(later, 0) else Stamp(now, (s.sequence + 1) % SEQS)
    else Stamp(now, 0)
  }

  /** Stamps grow exactly as long as the clock does not go back. */
  lemma NextStampGrows(s: Stamp, now: nat, later: nat)
    requires s.sequence < SEQS && later > s.time
    ensures Before(s, NextStamp(s, now, later)) <==> s.time <= now
    ensures NextStamp(s, now, later).sequence < SEQS
  { }

  /** The first reading after `time`. */
  function FirstLater(clock: seq<nat>, at: nat, time: nat): (k: nat)
    requires at <= |clock|
    ensures at <= k <= |clock|
    ensures k < |clock| ==> clock[k] > time
    ensures forall i :: at <= i < k ==> clock[i] <= time
    decreases |clock| - at
  {
    if at < |clock| && clock[at] <= time then FirstLater(clock, at + 1, time) else at
  }

  /** The reading that ends a call which begins with reading `at`; the readings may end first. */
  function Last(s: Stamp, clock: seq<nat>, at: nat): (k: nat)
    requires at <= |clock|
    ensures at <= k <= |clock|
  {
    if at < |clock| && s.time == clock[at] && (s.sequence + 1) % SEQS == 0 then FirstLater(clock, at + 1, s.time) else at
  }

  /** The stamps of all calls a clock allows. */
  function Generated(s: Stamp, clock: seq<nat>, at: nat): seq<Stamp>
    requires at <= |clock|
    decreases |clock| - at
  {
    var k := Last(s, clock, at);
    if k == |clock| then []
    else
      var t := NextStamp(s, clock[at], clock[k]);
      [t] + Generated(t, clock, k + 1)
  }

  /** The calls that follow one call. */
  lemma GeneratedStep(s: Stamp, clock: seq<nat>, at: nat, before: seq<Stamp>)
    requires at <= |clock|
    ensures var k := Last(s, clock, at);
      if k == |clock| then Generated(s, clock, at) == []
      else
        var t := NextStamp(s, clock[at], clock[k]);
        before + Generated(s, clock, at) == before + [t] + Generated(t, clock, k + 1)
  { }

  predicate Increasing(stamps: seq<Stamp>) { forall j, k :: 0 <= j < k < |stamps| ==> Before(stamps[j], stamps[k]) }

  /** No call begins with a reading before the last stamp. */
  predicate Forward(s: Stamp, clock: seq<nat>, at: nat)
    requires at <= |clock|
    decreases |clock| - at
  {
    var k := Last(s, clock, at);
    k == |clock| || (s.time <= clock[at] && Forward(NextStamp(s, clock[at], clock[k]), clock, k + 1))
  }

  lemma IncreasingStep(s: Stamp, t: Stamp, rest: seq<Stamp>)
    ensures Increasing([s] + ([t] + rest)) <==> Before(s, t) && Increasing([t] + rest)
  {
    var all, tail := [s] + ([t] + rest), [t] + rest;
    assert forall k :: 0 <= k < |tail| ==> all[k + 1] == tail[k];
    if Before(s, t) && Increasing(tail) {
      forall j, k | 0 <= j < k < |all| ensures Before(all[j], all[k]) {
        if j > 0 { assert Before(tail[j - 1], tail[k - 1]); }
        if j == 0 && k > 1 { assert Before(tail[0], tail[k - 1]); }
      }
    }
    if Increasing(all) {
      assert Before(all[0], all[1]);
      forall j, k | 0 <= j < k < |tail| ensures Before(tail[j], tail[k]) { assert Before(all[j + 1], all[k + 1]); }
    }
  }

  /** The stamps strictly increase exactly if no call begins with an earlier reading. */
  lemma {:induction false} IncreasingIffForward(s: Stamp, clock: seq<nat>, at: nat)
    requires at <= |clock| && s.sequence < SEQS
    ensures Increasing([s] + Generated(s, clock, at)) <==> Forward(s, clock, at)
    ensures forall k :: 0 <= k < |Generated(s, clock, at)| ==> Generated(s, clock, at)[k].sequence < SEQS
    decreases |clock| - at
  {
    hide Increasing;
    var k := Last(s, clock, at);
    if k == |clock| {
      IncreasingOne(s);
    } else {
      var t := NextStamp(s, clock[at], clock[k]);
      NextStampGrows(s, clock[at], if clock[k] > s.time then clock[k] else s.time + 1);
      IncreasingIffForward(t, clock, k + 1);
      IncreasingStep(s, t, Generated(t, clock, k + 1));
    }
  }

  lemma IncreasingOne(s: Stamp)
    ensures Increasing([s] + [])
  { }

  lemma {:induction false} NonDecreasingForward(s: Stamp, clock: seq<nat>, at: nat)
    requires at <= |clock| && NonDecreasing(clock) && (at < |clock| ==> s.time <= clock[at])
    ensures Forward(s, clock, at)
    decreases |clock| - at
  {
    var k := Last(s, clock, at);
    if k < |clock| { NonDecreasingForward(NextStamp(s, clock[at], clock[k]), clock, k + 1); }
  }

  /** The stamp after `s` when reading `from` is the next: a reading, `to`, with a new count for a new time
      and the next number for the same one. Readings are skipped only when the numbers of a time are used up,
      up to the first reading after it. */
  predicate Follows(s: Stamp, t: Stamp, clock: seq<nat>, from: nat, to: nat) {
    && from <= to < |clock| && t.time == clock[to] && t.sequence < SEQS
    && t.sequence == (if t.time == s.time then s.sequence + 1 else 0)
    && (from < to ==> clock[from] == s.time && s.sequence + 1 == SEQS && clock[to] > s.time)
    && (forall i :: from <= i < to ==> clock[i] <= s.time)
  }

  lemma NextFollows(s: Stamp, clock: seq<nat>, at: nat)
    requires at <= |clock| && s.sequence < SEQS && Last(s, clock, at) < |clock|
    ensures Follows(s, NextStamp(s, clock[at], clock[Last(s, clock, at)]), clock, at, Last(s, clock, at))
  { }

  /** Each stamp follows the one before it; `read` are the readings they end at. */
  predicate Chain(s: Stamp, stamps: seq<Stamp>, clock: seq<nat>, at: nat, read: seq<nat>)
    decreases |stamps|
  {
    |read| == |stamps|
    && (stamps != [] ==> Follows(s, stamps[0], clock, at, read[0]) && Chain(stamps[0], stamps[1..], clock, read[0] + 1, read[1..]))
  }

  /** The stamps of any clock, also of one that goes back, make a chain. */
  lemma {:induction false} StampsChain(s: Stamp, clock: seq<nat>, at: nat) returns (read: seq<nat>)
    requires at <= |clock| && s.sequence < SEQS
    ensures Chain(s, Generated(s, clock, at), clock, at, read)
    decreases |clock| - at
  {
    var k := Last(s, clock, at);
    if k == |clock| {
      read := [];
    } else {
      NextFollows(s, clock, at);
      var rest := StampsChain(NextStamp(s, clock[at], clock[k]), clock, k + 1);
      read := [k] + rest;
    }
  }

  /** Stamps of one time with the numbers from `q` on. */
  function Row(t: nat, q: nat, n: nat): seq<Stamp> { seq(n, i requires 0 <= i < n => Stamp(t, q + i)) }

  lemma RowNone(t: nat, q: nat)
    ensures Row(t, q, 0) == []
  { }

  lemma RowHead(t: nat, q: nat, n: nat)
    requires n > 0
    ensures Row(t, q, n) == [Stamp(t, q)] + Row(t, q + 1, n - 1)
  { }

  /** A clock that stands still gives one stamp per reading until the 4096 numbers are used up,
      and then none. */
  lemma {:induction false} Burst(t: nat, q: nat, clock: seq<nat>, at: nat)
    requires q < SEQS && at <= |clock| && forall i :: at <= i < |clock| ==> clock[i] == t
    ensures Generated(Stamp(t, q), clock, at) == Row(t, q + 1, if |clock| - at < SEQS - q then |clock| - at else SEQS - 1 - q)
    decreases |clock| - at
  {
    hide Generated, Row;
    GeneratedStep(Stamp(t, q), clock, at, []);
    if at < |clock| && q + 1 < SEQS {
      Burst(t, q + 1, clock, at + 1);
      RowHead(t, q + 1, if |clock| - at < SEQS - q then |clock| - at else SEQS - 1 - q);
      assert [] + Generated(Stamp(t, q), clock, at) == Generated(Stamp(t, q), clock, at);
    } else {
      RowNone(t, q + 1);
    }
  }

  /** A clock that goes back by one microsecond and returns makes a stamp appear twice. */
  lemma BackwardRepeats(t: nat)
    requires t > 0
    ensures Generated(Stamp(0, 0), [t, t - 1, t], 0) == [Stamp(t, 0), Stamp(t - 1, 0), Stamp(t, 0)]
  {
    var clock := [t, t - 1, t];
    assert Generated(Stamp(t, 0), clock, 3) == [];
    assert Generated(Stamp(t - 1, 0), clock, 2) == [Stamp(t, 0)];
    assert Generated(Stamp(t, 0), clock, 1) == [Stamp(t - 1, 0), Stamp(t, 0)];
  }

  class SnowFlakeUUID {
    const host: nat
    const server: nat
    var sequence: nat
    var last: nat

    function Value(): Stamp
      reads this
    {
      Stamp(last, sequence)
    }

    constructor (host: nat, server: nat)
      ensures this.host == host && this.server == server && Value() == Stamp(0, 0)
    {
      this.host, this.server, sequence, last := host, server, 0, 0;
    }

    /** _WaitNextTimestamp. */
    method WaitNextTimestamp(clock: seq<nat>, at: nat, time: nat) returns (k: nat)
      requires at <= |clock|
      ensures k == FirstLater(clock, at, time)
    {
      k := at;
      while k < |clock| && clock[k] <= time
        invariant at <= k <= |clock| && FirstLater(clock, k, time) == FirstLater(clock, at, time)
      {
        k := k + 1;
      }
    }

    /** GenerateSeqID from reading `at` on; `ok` is false if the readings end first. */
    method GenerateSeqID(clock: seq<nat>, at: nat) returns (ok: bool, id: nat, next: nat)
      requires at <= |clock| && sequence < SEQS
      modifies this
      ensures ok <==> Last(old(Value()), clock, at) < |clock|
      ensures ok ==> next == Last(old(Value()), clock, at) + 1 && sequence < SEQS
      ensures ok ==> Value() == NextStamp(old(Value()), clock[at], clock[next - 1])
      ensures ok ==> id == Pack(last, host, server, sequence)
      ensures ok ==> (Before(old(Value()), Value()) <==> old(last) <= clock[at])
    {
      hide Identifier, Pack;
      if at == |clock| { return false, 0, at; }
      var now := clock[at];
      next := at + 1;
      if last == now {
        sequence := (sequence + 1) % SEQS;
        if sequence == 0 {
          var k := WaitNextTimestamp(clock, next, last);
          if k == |clock| { return false, 0, k; }
          now, next := clock[k], k + 1;
        }
      } else {
        sequence := 0;
      }
      last := now;
      id := Identifier(now, host, server, sequence);
      IdentifierIsPack(now, host, server, sequence);
      ok := true;
    }
  }

  /** The identifiers of the stamps. */
  predicate Packed(ids: seq<nat>, stamps: seq<Stamp>, host: nat, server: nat) {
    |ids| == |stamps| && forall k :: 0 <= k < |ids| ==> ids[k] == Pack(stamps[k].time, host, server, stamps[k].sequence)
  }

  /** Any number of calls on one generator, until the readings are used up or none of the
      remaining ones ends the waiting. The stamps are those of the clock; if no call
      begins with an earlier reading, identifiers less than 2^25 microseconds apart differ. */
  method GenerateAll(clock: seq<nat>, host: nat, server: nat) returns (ids: seq<nat>, stamps: seq<Stamp>)
    ensures stamps == Generated(Stamp(0, 0), clock, 0) && Packed(ids, stamps, host, server)
    ensures Increasing([Stamp(0, 0)] + stamps) <==> Forward(Stamp(0, 0), clock, 0)
    ensures Forward(Stamp(0, 0), clock, 0) ==> DistinctWithin(ids, stamps)
    ensures exists read :: Chain(Stamp(0, 0), stamps, clock, 0, read)
  {
    hide Pack, Generated, Last, NextStamp, Increasing, Forward, DistinctWithin, Chain;
    var g := new SnowFlakeUUID(host, server);
    var at := 0;
    ids, stamps := [], [];
    while true
      invariant Packed(ids, stamps, host, server)
      invariant fresh(g) && g.host == host && g.server == server && g.sequence < SEQS && 0 <= at <= |clock|
      invariant stamps + Generated(g.Value(), clock, at) == Generated(Stamp(0, 0), clock, 0)
      decreases |clock| - at
    {
      GeneratedStep(g.Value(), clock, at, stamps);
      var ok, id, next := g.GenerateSeqID(clock, at);
      if !ok { break; }
      ids, stamps, at := ids + [id], stamps + [g.Value()], next;
    }
    ghost var read := StampsChain(Stamp(0, 0), clock, 0);
    IncreasingIffForward(Stamp(0, 0), clock, 0);
    if Forward(Stamp(0, 0), clock, 0) { AllDistinct(clock, ids, stamps, host, server); }
  }

  // ---- uniqueness --------------------------------------------------------------------------

  /** Identifiers of one generator taken less than 2^25 microseconds apart are different. */
  lemma DistinctInTime(a: Stamp, b: Stamp, host: nat, server: nat)
    requires Before(a, b) && b.time < a.time + WINDOW && a.sequence < SEQS && b.sequence < SEQS
    ensures Pack(a.time, host, server, a.sequence) != Pack(b.time, host, server, b.sequence)
  { }

  predicate DistinctWithin(ids: seq<nat>, stamps: seq<Stamp>) {
    |ids| == |stamps| && forall j, k :: 0 <= j < k < |ids| && stamps[k].time < stamps[j].time + WINDOW ==> ids[j] != ids[k]
  }

  lemma AllDistinct(clock: seq<nat>, ids: seq<nat>, stamps: seq<Stamp>, host: nat, server: nat)
    requires Forward(Stamp(0, 0), clock, 0) && stamps == Generated(Stamp(0, 0), clock, 0) && Packed(ids, stamps, host, server)
    ensures DistinctWithin(ids, stamps)
  {
    hide Pack, Generated, Forward;
    IncreasingIffForward(Stamp(0, 0), clock, 0);
    var all := [Stamp(0, 0)] + stamps;
    forall j, k | 0 <= j < k < |ids| && stamps[k].time < stamps[j].time + WINDOW ensures ids[j] != ids[k] {
      assert Before(all[j + 1], all[k + 1]);
      DistinctInTime(stamps[j], stamps[k], host, server);
    }
  }

  /** The bound is sharp: 2^25 microseconds later the identifier comes back. */
  lemma ReturnsAfterWindow(a: Stamp, host: nat, server: nat)
    ensures Pack(a.time + WINDOW, host, server, a.sequence) == Pack(a.time, host, server, a.sequence)
  { }

  /** Generators whose host or server numbers differ in the low five bits never collide. */
  lemma DistinctGenerators(a: Stamp, b: Stamp, host: nat, server: nat, host': nat, server': nat)
    requires host % 32 != host' % 32 || server % 32 != server' % 32
    ensures Pack(a.time, host, server, a.sequence) != Pack(b.time, host', server', b.sequence)
  {
    PackEqual(a.time, host, server, a.sequence, b.time, host', server', b.sequence);
  }
}
