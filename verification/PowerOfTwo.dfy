/** The bit trick that rounds a buffer size down to a power of two. */
module PowerOfTwo {
  import opened Ring

  /** rounddown_pow_of_two on 32-bit words. */
  function RoundDown(n: bv32): bv32 {
    var a := n | (n >> 1);
    var b := a | (a >> 2);
    var c := b | (b >> 4);
    var d := c | (c >> 8);
    var e := d | (d >> 16);
    (e + 1) >> 1
  }

  predicate IsPower(n: nat) { n == 1 || (n > 1 && n % 2 == 0 && IsPower(n / 2)) }

  function Bit(odd: bool): bv32 { if odd then 1 else 0 }

  function Half(b: bv32): bv32 { b >> 1 }

  predicate Odd(b: bv32) { b & 1 == 1 }

  /** The number held in the lowest k bits of a word. */
  function Value(b: bv32, k: nat): nat {
    if k == 0 then 0 else 2 * Value(Half(b), k - 1) + (if Odd(b) then 1 else 0)
  }

  /** The word holding the lowest k bits of a number. */
  function Word(n: nat, k: nat): bv32 {
    if k == 0 then 0 else (Word(n / 2, k - 1) << 1) | Bit(n % 2 == 1)
  }

  ghost function Pow(k: nat): nat { if k == 0 then 1 else 2 * Pow(k - 1) }

  /** k ones. */
  ghost function Ones(k: nat): bv32 { if k == 0 then 0 else (Ones(k - 1) << 1) | 1 }

  // ---- numbers and words ----------------------------------------------------

  lemma ShiftUnder(w: bv32, m: bv32, low: bv32)
    requires w & !m == 0 && low <= 1
    ensures ((w << 1) | low) & !((m << 1) | 1) == 0
  { }

  lemma {:induction false} WordUnderOnes(n: nat, k: nat)
    ensures Word(n, k) & !Ones(k) == 0
  {
    if k > 0 {
      WordUnderOnes(n / 2, k - 1);
      hide Word, Bit;
      WordIs(n, k);
      ShiftUnder(Word(n / 2, k - 1), Ones(k - 1), Bit(n % 2 == 1));
    }
  }

  lemma {:induction false} OnesGrow(k: nat, m: nat)
    requires k <= m
    ensures Ones(k) & !Ones(m) == 0
  {
    if k > 0 {
      OnesGrow(k - 1, m - 1);
      ShiftUnder(Ones(k - 1), Ones(m - 1), 1);
    }
  }

  lemma Ones31()
    ensures Ones(31) == 0x7fff_ffff
  {
    assert Ones(8) == 0xff;
    assert Ones(16) == 0xffff;
    assert Ones(24) == 0xff_ffff;
  }

  lemma WordShort(n: nat, k: nat)
    requires k <= 31
    ensures Word(n, k) < 0x8000_0000
  {
    WordUnderOnes(n, k);
    OnesGrow(k, 31);
    Ones31();
    UnderBoth(Word(n, k), Ones(k), Ones(31));
  }

  lemma UnderBoth(a: bv32, b: bv32, c: bv32)
    requires a & !b == 0 && b & !c == 0 && c == 0x7fff_ffff
    ensures a < 0x8000_0000
  { }

  lemma ShiftBack(w: bv32, low: bv32)
    requires w < 0x8000_0000 && low <= 1
    ensures ((w << 1) | low) >> 1 == w && ((w << 1) | low) & 1 == low
  { }

  lemma ValueStep(b: bv32, k: nat, half: bv32, odd: bool)
    requires k > 0 && b >> 1 == half && b & 1 == Bit(odd)
    ensures Value(b, k) == 2 * Value(half, k - 1) + (if odd then 1 else 0)
  { }

  lemma {:induction false} ValueOfWord(n: nat, k: nat)
    requires k <= 32 && n < Pow(k)
    ensures Value(Word(n, k), k) == n
  {
    if k > 0 {
      hide Word, Value, Bit;
      ValueOfWord(n / 2, k - 1);
      WordStep(n, k);
      ValueStep(Word(n, k), k, Word(n / 2, k - 1), n % 2 == 1);
    }
  }

  lemma WordIs(n: nat, k: nat)
    requires 0 < k
    ensures Word(n, k) == (Word(n / 2, k - 1) << 1) | Bit(n % 2 == 1)
    ensures Bit(n % 2 == 1) <= 1
  { }

  lemma WordStep(n: nat, k: nat)
    requires 0 < k <= 32
    ensures Word(n, k) >> 1 == Word(n / 2, k - 1) && Word(n, k) & 1 == Bit(n % 2 == 1)
  {
    hide Word, Bit;
    WordIs(n, k);
    WordShort(n / 2, k - 1);
    ShiftBack(Word(n / 2, k - 1), Bit(n % 2 == 1));
  }

  /** The word needs no more than k bits. */
  ghost predicate Fits(b: bv32, k: nat) { b & !Ones(k) == 0 }

  lemma HalfFits(b: bv32, k: nat)
    requires 0 < k <= 32 && Fits(b, k)
    ensures Fits(Half(b), k - 1)
  { }

  ghost predicate Below(a: bv32, b: bv32) { a <= b }

  lemma HalfOrder(a: bv32, b: bv32)
    requires Below(a, b)
    ensures Below(Half(a), Half(b))
  { }

  lemma SameHalf(a: bv32, b: bv32)
    requires Half(a) == Half(b) && Below(a, b)
    ensures Odd(a) ==> Odd(b)
  { }

  lemma Rejoin(a: bv32, b: bv32)
    requires Half(a) == Half(b) && (Odd(a) <==> Odd(b))
    ensures a == b
  { }

  lemma {:induction false} ValueInjective(a: bv32, b: bv32, k: nat)
    requires k <= 32 && Fits(a, k) && Fits(b, k) && Value(a, k) == Value(b, k)
    ensures a == b
    decreases k
  {
    hide Fits, Half, Odd;
    if k > 0 {
      HalfFits(a, k); HalfFits(b, k);
      ValueInjective(Half(a), Half(b), k - 1);
      Rejoin(a, b);
    } else {
      FitsZero(a); FitsZero(b);
    }
  }

  lemma {:induction false} ValueOrder(a: bv32, b: bv32, k: nat)
    requires k <= 32 && Below(a, b) && Fits(a, k) && Fits(b, k)
    ensures Value(a, k) <= Value(b, k)
    decreases k
  {
    hide Fits, Half, Odd, Below;
    if k > 0 {
      HalfFits(a, k); HalfFits(b, k);
      HalfOrder(a, b);
      ValueOrder(Half(a), Half(b), k - 1);
      if Value(Half(a), k - 1) == Value(Half(b), k - 1) {
        ValueInjective(Half(a), Half(b), k - 1);
        SameHalf(a, b);
      }
    }
  }

  lemma FitsZero(a: bv32)
    requires Fits(a, 0)
    ensures a == 0
  { }

  lemma {:induction false} ValueZero(k: nat)
    ensures Value(0, k) == 0
  {
    if k > 0 { ValueZero(k - 1); }
  }

  lemma {:induction false} ValueWider(b: bv32, k: nat)
    requires k < 32 && Fits(b, k)
    ensures Value(b, k + 1) == Value(b, k)
  {
    if k > 0 { HalfFits(b, k); ValueWider(Half(b), k - 1); } else { FitsZero(b); ValueZero(1); }
  }

  predicate OneBit(r: bv32) { r != 0 && r & (r - 1) == 0 }

  lemma SingleBit(r: bv32)
    requires OneBit(r)
    ensures if Odd(r) then r == 1 else OneBit(Half(r))
  { }

  lemma {:induction false} PowerValue(r: bv32, k: nat)
    requires k <= 32 && Fits(r, k) && OneBit(r)
    ensures IsPower(Value(r, k))
  {
    if k == 0 {
      FitsZero(r);
    } else {
      SingleBit(r);
      if Odd(r) { ValueZero(k - 1); } else { HalfFits(r, k); PowerValue(Half(r), k - 1); }
    }
  }

  // ---- the rounding ---------------------------------------------------------

  lemma RoundDownWord(n: bv32)
    requires 0 < n < 0x8000_0000
    ensures var r := RoundDown(n); OneBit(r) && Below(r, n) && Below(Half(n), r) && Half(n) != r
  { }

  lemma RoundDownHigh(n: bv32)
    requires n == 0 || n >= 0x8000_0000
    ensures RoundDown(n) == 0
  { }

  /** rounddown_pow_of_two on numbers. */
  function RoundDownPow2(n: nat): nat { Value(RoundDown(Word(n, 32)), 32) }

  lemma All32(b: bv32)
    ensures Fits(b, 32)
  {
    Ones31();
    assert Ones(32) == 0xffff_ffff;
  }

  lemma PowValues()
    ensures Pow(31) == 0x8000_0000 && Pow(32) == 0x1_0000_0000
  {
    assert Pow(8) == 0x100;
    assert Pow(16) == 0x1_0000;
    assert Pow(24) == 0x100_0000;
  }

  lemma {:induction false} WordWider(n: nat, k: nat)
    requires n < Pow(k)
    ensures Word(n, k + 1) == Word(n, k)
  {
    if k > 0 {
      WordWider(n / 2, k - 1);
      WordIs(n, k + 1); WordIs(n, k);
    }
  }

  lemma {:induction false} ValueBound(b: bv32, k: nat)
    ensures Value(b, k) < Pow(k)
  {
    if k > 0 { ValueBound(Half(b), k - 1); }
  }

  lemma Fits31(b: bv32)
    requires b < 0x8000_0000
    ensures Fits(b, 31)
  {
    Ones31();
  }

  lemma LowWord(n: nat)
    requires 1 <= n < 0x8000_0000
    ensures var w := Word(n, 32); Value(w, 32) == n && w < 0x8000_0000 && w != 0
  {
    hide Half, Odd, Below, Fits, RoundDown;
    PowValues();
    ValueOfWord(n, 32);
    WordWider(n, 31);
    WordShort(n, 31);
    ValueZero(32);
  }

  lemma Lower(w: bv32, r: bv32)
    requires Below(r, w)
    ensures Value(r, 32) <= Value(w, 32)
  {
    hide Word, RoundDown, Half, Odd, Below, Fits;
    All32(r); All32(w);
    ValueOrder(r, w, 32);
  }

  lemma Halved(w: bv32, k: nat)
    requires 0 < k <= 32 && Fits(w, k)
    ensures Value(w, k) <= 2 * Value(Half(w), k) + 1
  {
    hide Word, RoundDown, Half, Odd, Below, Fits;
    HalfFits(w, k);
    ValueWider(Half(w), k - 1);
  }

  lemma Different(a: bv32, b: bv32)
    requires a != b
    ensures Value(a, 32) != Value(b, 32)
  {
    hide Word, RoundDown, Half, Odd, Below, Fits;
    All32(a); All32(b);
    if Value(a, 32) == Value(b, 32) { ValueInjective(a, b, 32); }
  }

  /** A power of two between half a word and the word. */
  lemma Sandwich(w: bv32, r: bv32)
    requires OneBit(r) && Below(r, w) && Below(Half(w), r) && Half(w) != r
    ensures IsPower(Value(r, 32)) && Value(r, 32) <= Value(w, 32) < 2 * Value(r, 32)
  {
    hide Word, RoundDown, Half, Odd, Below, Fits, OneBit, Value, IsPower;
    All32(r); All32(w);
    PowerValue(r, 32);
    Lower(w, r);
    Lower(r, Half(w));
    Different(Half(w), r);
    Halved(w, 32);
  }

  lemma RoundDownLow(n: nat)
    requires 1 <= n < 0x8000_0000
    ensures var r := RoundDownPow2(n); IsPower(r) && r <= n < 2 * r
  {
    hide Word, RoundDown, Half, Odd, Below, Fits, Value, IsPower, OneBit;
    var w := Word(n, 32);
    LowWord(n);
    RoundDownWord(w);
    Sandwich(w, RoundDown(w));
  }

  lemma RoundDownOther(n: nat)
    requires n == 0 || 0x8000_0000 <= n < 0x1_0000_0000
    ensures RoundDownPow2(n) == 0
  {
    PowValues();
    var w := Word(n, 32);
    ValueOfWord(n, 32);
    if w != 0 && w < 0x8000_0000 {
      Fits31(w);
      ValueWider(w, 31);
      ValueBound(w, 31);
    }
    if n == 0 { All32(w); All32(0); ValueZero(32); ValueInjective(w, 0, 32); }
    if w == 0 { ValueZero(32); }
    RoundDownHigh(w);
    ValueZero(32);
  }

  // ---- powers of two divide the counter range --------------------------------

  lemma {:induction false} PowerIsPow(n: nat) returns (k: nat)
    requires IsPower(n)
    ensures n == Pow(k)
  {
    if n == 1 { k := 0; } else { k := PowerIsPow(n / 2); k := k + 1; }
  }

  lemma {:induction false} PowSplit(a: nat, b: nat)
    ensures Pow(a + b) == Pow(a) * Pow(b) && Pow(b) >= 1
  {
    if a > 0 { PowSplit(a - 1, b); } else if b > 0 { PowSplit(0, b - 1); }
  }

  lemma PowerDivides(n: nat)
    requires IsPower(n) && n < 0x1_0000_0000
    ensures 0x1_0000_0000 % n == 0
  {
    var k := PowerIsPow(n);
    PowValues();
    if k >= 32 { PowSplit(k - 32, 32); PowSplit(0, k - 32); }
    PowSplit(32 - k, k);
    ModMultiple(0, n, Pow(32 - k));
  }
}
