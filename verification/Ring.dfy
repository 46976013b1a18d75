/** Reading and writing a circular buffer, and the index arithmetic behind it. */
module Ring {

  type Byte = x: int | 0 <= x < 256

  const WORD: int := 0x1_0000_0000

  /** Position k places after o on a circle of n. */
  function Step(o: int, k: int, n: int): int { if o + k < n then o + k else o + k - n }

  /** Distance from o forward to j. */
  function Dist(o: int, j: int, n: int): int { if o <= j then j - o else j - o + n }

  /** The m bytes from o on. */
  function Read(s: seq<Byte>, o: nat, m: nat): (r: seq<Byte>)
    requires o < |s| && m <= |s|
    ensures |r| == m
    ensures forall k :: 0 <= k < m ==> r[k] == s[Step(o, k, |s|)]
  {
    seq(m, k requires 0 <= k < m => s[Step(o, k, |s|)])
  }

  /** `src` laid over the buffer from o on. */
  function Write(s: seq<Byte>, o: nat, src: seq<Byte>): (r: seq<Byte>)
    requires o < |s| && |src| <= |s|
    ensures |r| == |s|
    ensures forall j :: 0 <= j < |s| ==> r[j] == if Dist(o, j, |s|) < |src| then src[Dist(o, j, |s|)] else s[j]
  {
    seq(|s|, j requires 0 <= j < |s| => if Dist(o, j, |s|) < |src| then src[Dist(o, j, |s|)] else s[j])
  }

  /** Writing behind the m bytes in use appends to them. */
  lemma WriteAppends(s: seq<Byte>, o: nat, m: nat, src: seq<Byte>)
    requires o < |s| && m + |src| <= |s|
    ensures Step(o, m, |s|) < |s| || src == []
    ensures src != [] ==> Read(Write(s, Step(o, m, |s|), src), o, m + |src|) == Read(s, o, m) + src
  { }

  /** Moving the start forward drops from the front. */
  lemma ReadDrops(s: seq<Byte>, o: nat, m: nat, k: nat)
    requires o < |s| && k <= m <= |s|
    ensures 0 <= Step(o, k, |s|) && (Step(o, k, |s|) < |s| || k == 0)
    ensures Step(o, k, |s|) < |s| ==> Read(s, Step(o, k, |s|), m - k) == Read(s, o, m)[k..]
  { }

  /** Two writes one behind the other are one write. */
  lemma WriteTwice(s: seq<Byte>, o: nat, a: seq<Byte>, b: seq<Byte>)
    requires o < |s| && |a| + |b| <= |s|
    ensures 0 <= Step(o, |a|, |s|) < |s|
    ensures Write(Write(s, o, a), Step(o, |a|, |s|), b) == Write(s, o, a + b)
  { }

  lemma ReadPrefix(s: seq<Byte>, o: nat, m: nat, k: nat)
    requires o < |s| && k <= m <= |s|
    ensures Read(s, o, k) == Read(s, o, m)[..k]
  { }

  // ---- free-running 32-bit counters over a power-of-two size ------------------

  function Add32(a: nat, b: nat): nat
    requires a < WORD && b < WORD
  { if a + b < WORD then a + b else a + b - WORD }

  function Sub32(a: nat, b: nat): nat
    requires a < WORD && b < WORD
  { if b <= a then a - b else a - b + WORD }

  lemma {:induction false} ModMultiple(x: nat, size: nat, q: nat)
    requires size > 0
    ensures (x + q * size) % size == x % size
  {
    if q > 0 {
      ModMultiple(x, size, q - 1);
      ModStep(x + (q - 1) * size, size);
      assert x + q * size == x + (q - 1) * size + size;
    }
  }

  lemma ModStep(x: nat, size: nat)
    requires size > 0
    ensures (x + size) % size == x % size
  {
    var q, r := x / size, x % size;
    assert x + size == (q + 1) * size + r;
    DivUnique(x + size, size, q + 1, r);
  }

  lemma DivUnique(x: int, size: nat, q: int, r: nat)
    requires size > 0 && x == q * size + r && r < size
    ensures x % size == r
  {
    var q', r' := x / size, x % size;
    assert x == q' * size + r';
    Multiples(q, q', size);
    Multiples(q', q, size);
  }

  lemma Multiples(a: int, b: int, size: nat)
    ensures a > b ==> a * size >= b * size + size
  {
    if a > b {
      assert a * size == b * size + (a - b) * size;
      AtLeastOne(a - b, size);
    }
  }

  lemma AtLeastOne(d: int, size: nat)
    requires d >= 1
    ensures d * size >= size
  { }

  /** Advancing a counter by n <= size moves its slot n places around. */
  lemma CounterStep(c: nat, n: nat, size: nat)
    requires c < WORD && n <= size < WORD && size > 0 && WORD % size == 0
    ensures Add32(c, n) % size == (if n == size then c % size else Step(c % size, n, size))
  {
    var q, r := c / size, c % size;
    assert c == q * size + r;
    if c + n >= WORD {
      var p := WORD / size;
      assert WORD == p * size;
      ModMultiple(c + n - WORD, size, p);
    }
    assert Add32(c, n) % size == (c + n) % size;
    if r + n < size { DivUnique(c + n, size, q, r + n); }
    else { 
      assert c + n == (q + 1) * size + (r + n - size);
      if n == size { DivUnique(c + n, size, q + 1, r); } else { DivUnique(c + n, size, q + 1, r + n - size); }
    }
  }
}
