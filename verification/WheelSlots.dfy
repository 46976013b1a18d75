/** Where the hierarchical timing wheel keeps a timer, and how one clock tick
    changes that place.  Ticks and deadlines here are the 32-bit values the
    wheel stores, so all of them lie in [0, WRAP). */
module WheelSlots {

  const WRAP: int := 0x1_0000_0000
  const HALF: int := 0x8000_0000

  /** A uint32_t tick. */
  type Tick32 = x: int | 0 <= x < 0x1_0000_0000

  /** One list of the wheel: a near list, or list `idx` of one of the four levels. */
  datatype Slot = Near(idx: int) | Level(level: int, idx: int)

  predicate ValidSlot(s: Slot) {
    match s
    case Near(i) => 0 <= i < 256
    case Level(l, i) => 0 <= l < 4 && 0 <= i < 64
  }

  /** Ticks covered by one list of a level: 2^8, 2^14, 2^20, 2^26. */
  function Span(level: int): (s: int)
    ensures s > 0
  {
    if level == 0 then 0x100 else if level == 1 then 0x4000
    else if level == 2 then 0x10_0000 else 0x400_0000
  }

  function Block(x: int, level: int): int { x / Span(level) }

  predicate Same(e: int, t: int, level: int) { Block(e, level) == Block(t, level) }

  /** How far a deadline is from being near: the number of block sizes at which
      deadline and clock still fall into different blocks. */
  function RankOf(e: int, t: int): (r: int)
    ensures 0 <= r <= 4
  {
    if Same(e, t, 0) then 0 else if Same(e, t, 1) then 1
    else if Same(e, t, 2) then 2 else if Same(e, t, 3) then 3 else 4
  }

  /** The canonical list of a timer with deadline `e` when the clock shows `t`. */
  function SlotOf(e: int, t: int): (s: Slot)
    ensures ValidSlot(s)
  {
    var r := RankOf(e, t);
    if r == 0 then Near(e % 0x100) else Level(r - 1, Block(e, r - 1) % 64)
  }

  function SlotRank(s: Slot): int {
    match s case Near(_) => 0 case Level(l, _) => l + 1
  }

  /** A deadline at most HALF - 1 ticks ahead of the clock, across the 2^32 wrap. */
  predicate Ahead(e: int, t: int) {
    0 <= e < WRAP && 0 <= t < WRAP && (t < e < t + HALF || e + WRAP < t + HALF)
  }

  /** How many block sizes divide the new clock value `ct`. */
  function Carry(ct: int): (n: int)
    ensures 0 <= n <= 4
  {
    if ct % Span(0) != 0 then 0 else if ct % Span(1) != 0 then 1
    else if ct % Span(2) != 0 then 2 else if ct % Span(3) != 0 then 3 else 4
  }

  /** The one list that has to be redistributed when the clock reaches `ct`. */
  function CascadeSlot(ct: int): (s: Slot)
    requires Carry(ct) > 0
    ensures ValidSlot(s)
  {
    Level(Carry(ct) - 1, Block(ct, Carry(ct) - 1) % 64)
  }

  predicate Cascades(s: Slot, ct: int) { Carry(ct) > 0 && s == CascadeSlot(ct) }

  /** 32-bit addition. */
  function Later(t: Tick32, delay: Tick32): Tick32 {
    if t + delay < WRAP then t + delay else t + delay - WRAP
  }

  function NextTick(t: Tick32): Tick32 { Later(t, 1) }

  /** An unbounded tick count as the wheel stores it. */
  function Wrap(x: nat): Tick32 { if x < WRAP then x else Wrap(x - WRAP) }

  lemma {:induction false} WrapIsMod(x: nat)
    ensures Wrap(x) == x % WRAP
  {
    if x >= WRAP { WrapIsMod(x - WRAP); }
  }

  lemma {:induction false} WrapAdd(x: nat, delay: nat)
    requires delay < WRAP
    ensures Wrap(x + delay) == Later(Wrap(x), delay)
  {
    if x >= WRAP { WrapAdd(x - WRAP, delay); }
  }

  lemma {:induction false} WrapAhead(now: nat, deadline: nat)
    requires now < deadline < now + HALF
    ensures Ahead(Wrap(deadline), Wrap(now))
  {
    if now >= WRAP { WrapAhead(now - WRAP, deadline - WRAP); }
  }

  lemma {:induction false} WrapSame(now: nat, deadline: nat)
    requires now <= deadline < now + HALF
    ensures Wrap(deadline) == Wrap(now) <==> deadline == now
  {
    if now < deadline { WrapAhead(now, deadline); }
  }

  // ---- block arithmetic -------------------------------------------------

  lemma BlockMono(a: int, b: int, l: int)
    requires 0 <= a <= b
    ensures Block(a, l) <= Block(b, l)
  { }

  lemma BlockStep(t: int, l: int)
    requires 0 <= t
    ensures Block(t + 1, l) == Block(t, l) + (if (t + 1) % Span(l) == 0 then 1 else 0)
  { }

  lemma Nested(x: int, l: int)
    requires 0 <= x && 0 <= l < 3
    ensures Block(x, l + 1) == Block(x, l) / 64
    ensures x % Span(l + 1) == 0 ==> x % Span(l) == 0
  { }

  lemma SameUp(e: int, t: int, l: int)
    requires 0 <= e && 0 <= t && 0 <= l < 3
    ensures Same(e, t, l) ==> Same(e, t, l + 1)
  {
    Nested(e, l); Nested(t, l);
  }

  lemma CarrySame(e: int, t: int, l: int)
    requires 0 <= t < e && 0 <= l < 4
    ensures l < Carry(t + 1) ==> !Same(e, t, l)
    ensures l >= Carry(t + 1) ==> Same(e, t + 1, l) == Same(e, t, l)
  {
    BlockStep(t, l); BlockMono(t + 1, e, l);
    Nested(t + 1, 0); Nested(t + 1, 1); Nested(t + 1, 2);
  }

  /** While the blocks at level `i` line up, the list index decides whether the
      carry ends here; at the top level it always does. */
  lemma CarryEnds(ct: int, i: int)
    requires 0 < ct < WRAP && 0 <= i < 4 && ct % Span(i) == 0
    ensures Block(ct, i) % 64 != 0 ==> Carry(ct) == i + 1
    ensures Block(ct, i) % 64 == 0 ==> i < 3 && ct % Span(i + 1) == 0
  {
    Nested(ct, 0); Nested(ct, 1); Nested(ct, 2);
  }

  // ---- one tick ---------------------------------------------------------

  lemma RankShift(e: int, t: int)
    requires 0 <= t < e
    ensures var n := Carry(t + 1);
      && RankOf(e, t) >= n
      && (if n > 0 && Same(e, t + 1, n - 1)
          then RankOf(e, t) == n && RankOf(e, t + 1) < n
          else RankOf(e, t + 1) == RankOf(e, t))
  {
    CarrySame(e, t, 0); CarrySame(e, t, 1); CarrySame(e, t, 2); CarrySame(e, t, 3);
    SameUp(e, t + 1, 0); SameUp(e, t + 1, 1); SameUp(e, t + 1, 2);
  }

  /** Within one parent block the list index tells the block. */
  lemma IndexTellsBlock(e: int, ct: int, n: int)
    requires 0 <= e < WRAP && 0 <= ct < WRAP && 1 <= n <= 4
    requires n < 4 ==> Same(e, ct, n)
    ensures Block(e, n - 1) % 64 == Block(ct, n - 1) % 64 <==> Same(e, ct, n - 1)
  {
    if n < 4 { Nested(e, n - 1); Nested(ct, n - 1); }
  }

  lemma SameUnderCarry(e: int, t: int)
    requires 0 <= t < e && 0 < Carry(t + 1) < 4 && RankOf(e, t) == Carry(t + 1)
    ensures Same(e, t + 1, Carry(t + 1))
  { }

  lemma ShiftAhead(e: int, t: int)
    requires 0 <= t < e < WRAP
    ensures RankOf(e, t) >= Carry(t + 1)
    ensures if Cascades(SlotOf(e, t), t + 1) then RankOf(e, t + 1) < RankOf(e, t)
            else SlotOf(e, t + 1) == SlotOf(e, t)
  {
    RankShift(e, t);
    var n := Carry(t + 1);
    if n > 0 && RankOf(e, t) == n {
      if n < 4 { SameUnderCarry(e, t); }
      IndexTellsBlock(e, t + 1, n);
    }
  }

  /** A deadline beyond the wrap sits on the top level, in the list of its highest six bits,
      until the clock wraps. */
  lemma ShiftBeyondWrap(e: Tick32, t: Tick32)
    requires e + WRAP < t + HALF
    ensures SlotOf(e, t) == Level(3, Block(e, 3))
    ensures t + 1 < WRAP ==> !Cascades(SlotOf(e, t), t + 1) && SlotOf(e, t + 1) == SlotOf(e, t)
    ensures RankOf(e, t) >= Carry(NextTick(t))
    ensures if Cascades(SlotOf(e, t), NextTick(t)) then RankOf(e, NextTick(t)) < RankOf(e, t)
            else SlotOf(e, NextTick(t)) == SlotOf(e, t)
  {
    hide Cascades, SlotOf, RankOf, Carry;
    BeyondSlot(e, t);
    if t + 1 < WRAP {
      BeyondStays(e, t + 1);
      BeyondSlot(e, t + 1);
    } else {
      ShiftAtWrap(e);
    }
  }

  lemma BeyondSlot(e: Tick32, t: Tick32)
    requires e < HALF <= t
    ensures RankOf(e, t) == 4 && SlotOf(e, t) == Level(3, Block(e, 3))
  {
    HighHalf(e, t);
    FarApart(e, t);
  }

  lemma ShiftAtWrap(e: Tick32)
    requires e < HALF
    ensures if Cascades(Level(3, Block(e, 3)), 0) then RankOf(e, 0) < 4 else SlotOf(e, 0) == Level(3, Block(e, 3))
  {
    HighHalf(e, HALF);
    if !Same(e, 0, 3) { FarApart(e, 0); }
  }

  lemma HighHalf(e: Tick32, t: Tick32)
    requires e < HALF <= t
    ensures 0 <= Block(e, 3) < 32 <= Block(t, 3) < 64
  { }

  lemma BeyondStays(e: Tick32, ct: Tick32)
    requires e < HALF <= ct
    ensures !Cascades(Level(3, Block(e, 3)), ct)
  {
    HighHalf(e, ct);
  }

  lemma FarApart(e: int, t: int)
    requires 0 <= e && 0 <= t && !Same(e, t, 3)
    ensures RankOf(e, t) == 4
  {
    SameUp(e, t, 0); SameUp(e, t, 1); SameUp(e, t, 2);
  }

  /** One tick: every list below the cascading one is empty beforehand, a
      cascading timer lands strictly lower, and no other timer changes list. */
  lemma ShiftSlot(e: Tick32, t: Tick32)
    requires Ahead(e, t)
    ensures RankOf(e, t) >= Carry(NextTick(t))
    ensures if Cascades(SlotOf(e, t), NextTick(t)) then RankOf(e, NextTick(t)) < RankOf(e, t)
            else SlotOf(e, NextTick(t)) == SlotOf(e, t)
  {
    if t < e { ShiftAhead(e, t); } else { ShiftBeyondWrap(e, t); }
  }

  /** The near list under the clock holds exactly the timers due now. */
  lemma DueSlot(e: int, t: int)
    requires 0 <= e < WRAP && 0 <= t < WRAP
    ensures SlotOf(e, t) == Near(t % 0x100) <==> e == t
  { }
}
