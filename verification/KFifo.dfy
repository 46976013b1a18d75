/** The kfifo ring buffer: free-running 32-bit counters over a power-of-two buffer. */
module KFifos {
  import opened Ring
  import opened PowerOfTwo

  const EINVAL: int := 22

  /** A fifo as a value; `bytes` is the part of the buffer in use. */
  datatype Fifo = Fifo(inn: nat, out: nat, size: nat, esize: nat, bytes: seq<Byte>)

  /** Bytes of n elements. */
  function Bytes(n: nat, esize: nat): nat { n * esize }

  ghost predicate DividesWord(size: nat) { size > 0 && WORD % size == 0 }

  ghost predicate Shape(f: Fifo) {
    && f.inn < WORD && f.out < WORD && f.esize > 0
    && 0 < f.size < WORD && DividesWord(f.size)
    && |f.bytes| == Bytes(f.size, f.esize) < WORD
  }

  /** kfifo_len. */
  function Len(f: Fifo): nat
    requires f.inn < WORD && f.out < WORD
  { Sub32(f.inn, f.out) }

  ghost predicate Valid(f: Fifo) { Shape(f) && Len(f) <= f.size }

  /** kfifo_unused. */
  ghost function Unused(f: Fifo): nat
    requires Valid(f)
  { f.size - Len(f) }

  /** Byte offset of a counter value: (c & mask) * esize. */
  function Off(f: Fifo, c: nat): nat
    requires f.size > 0
  { Bytes(c % f.size, f.esize) }

  /** The queued bytes, oldest first. */
  ghost function Contents(f: Fifo): seq<Byte>
    requires Valid(f)
  {
    OffBound(f, f.out); BytesMono(Len(f), f.size, f.esize);
    Read(f.bytes, Off(f, f.out), Bytes(Len(f), f.esize))
  }

  lemma BytesMono(a: nat, b: nat, e: nat)
    requires a <= b
    ensures Bytes(a, e) <= Bytes(b, e)
  { }

  lemma BytesAdd(a: nat, b: nat, e: nat)
    ensures Bytes(a + b, e) == Bytes(a, e) + Bytes(b, e)
  { }

  lemma BytesSome(n: nat, e: nat)
    requires e > 0
    ensures Bytes(0, e) == 0 && Bytes(1, e) == e && (n > 0 ==> Bytes(n, e) >= e)
  { }

  lemma BytesUnit(n: nat)
    ensures Bytes(n, 1) == n
  { }

  lemma OffBound(f: Fifo, c: nat)
    requires Shape(f)
    ensures 0 <= Off(f, c) && Off(f, c) + f.esize <= |f.bytes|
  {
    BytesMono(c % f.size + 1, f.size, f.esize);
    BytesAdd(c % f.size, 1, f.esize);
  }

  /** Where a counter's bytes start after advancing it by n elements. */
  lemma OffStep(f: Fifo, c: nat, n: nat)
    requires Shape(f) && c < WORD && n <= f.size
    ensures Off(f, Add32(c, n)) == if n == f.size then Off(f, c) else Step(Off(f, c), Bytes(n, f.esize), |f.bytes|)
  {
    CounterStep(c, n, f.size);
    var r, s, e := c % f.size, f.size, f.esize;
    hide Bytes;
    BytesAdd(r, n, e); BytesSome(s, e);
    if n < s && r + n < s {
      BytesMono(r + n + 1, s, e); BytesAdd(r + n, 1, e);
    } else if n < s {
      BytesAdd(r + n - s, s, e);
    }
  }

  // ---- put and take -----------------------------------------------------------

  /** The buffer after copying `src` to counter position `off`. */
  ghost function Copied(f: Fifo, off: nat, src: seq<Byte>): (r: seq<Byte>)
    requires Shape(f) && |src| <= |f.bytes|
    ensures |r| == |f.bytes|
  {
    OffBound(f, off);
    Write(f.bytes, Off(f, off), src)
  }

  /** m bytes from counter position `off` on. */
  ghost function From(f: Fifo, off: nat, m: nat): (r: seq<Byte>)
    requires Shape(f) && m <= |f.bytes|
    ensures |r| == m
  {
    OffBound(f, off);
    Read(f.bytes, Off(f, off), m)
  }

  /** n elements of `src` copied behind the queued ones. */
  ghost function Put(f: Fifo, src: seq<Byte>, n: nat): Fifo
    requires Valid(f) && n <= Unused(f) && |src| >= Bytes(n, f.esize)
  {
    hide Bytes;
    BytesMono(n, f.size, f.esize);
    f.(inn := Add32(f.inn, n), bytes := Copied(f, f.inn, src[..Bytes(n, f.esize)]))
  }

  ghost function Take(f: Fifo, n: nat): Fifo
    requires Valid(f) && n <= Len(f)
  { f.(out := Add32(f.out, n)) }

  lemma PutContents(f: Fifo, src: seq<Byte>, n: nat)
    requires Valid(f) && n <= Unused(f) && |src| >= Bytes(n, f.esize)
    ensures Valid(Put(f, src, n)) && Len(Put(f, src, n)) == Len(f) + n
    ensures Contents(Put(f, src, n)) == Contents(f) + src[..Bytes(n, f.esize)]
  {
    hide Bytes;
    var m, e := Len(f), f.esize;
    OffBound(f, f.out); OffBound(f, f.inn);
    BytesMono(m + n, f.size, e); BytesAdd(m, n, e); BytesSome(n, e);
    assert Add32(f.out, m) == f.inn;
    OffStep(f, f.out, m);
    if n == 0 {
      assert Write(f.bytes, Off(f, f.inn), src[..0]) == f.bytes;
    } else {
      WriteAppends(f.bytes, Off(f, f.out), Bytes(m, e), src[..Bytes(n, e)]);
    }
  }

  lemma TakeContents(f: Fifo, n: nat)
    requires Valid(f) && n <= Len(f)
    ensures Valid(Take(f, n)) && Len(Take(f, n)) == Len(f) - n
    ensures Bytes(n, f.esize) <= |Contents(f)| && Contents(Take(f, n)) == Contents(f)[Bytes(n, f.esize)..]
  {
    hide Bytes;
    var m, e := Len(f), f.esize;
    OffBound(f, f.out); OffBound(f, Add32(f.out, n));
    BytesMono(m, f.size, e); BytesMono(n, m, e); BytesAdd(m - n, n, e);
    OffStep(f, f.out, n);
    ReadDrops(f.bytes, Off(f, f.out), Bytes(m, e), Bytes(n, e));
  }

  class KFifo {
    var inn: nat
    var out: nat
    var mask: nat
    var esize: nat
    var data: array<Byte>

    ghost predicate Fits()
      reads this
    {
      Bytes(mask + 1, esize) <= data.Length
    }

    ghost function Value(): Fifo
      requires Fits()
      reads this, data
    {
      Fifo(inn, out, mask + 1, esize, data[..Bytes(mask + 1, esize)])
    }

    ghost predicate Ok()
      reads this, data
    {
      Fits() && Valid(Value())
    }

    constructor (buffer: array<Byte>)
      ensures data == buffer
    {
      data := buffer;
      inn, out, mask, esize := 0, 0, 0, 1;
    }

    /** __kfifo_init. */
    method Init(buffer: array<Byte>, size: nat, elem: nat) returns (code: int)
      requires 0 < elem < WORD && size < WORD && size <= buffer.Length
      modifies this
      ensures data == buffer && inn == out == 0 && esize == elem
      ensures if 2 <= size / elem < 0x8000_0000
              then code == 0 && Ok() && Contents(Value()) == []
                   && IsPower(mask + 1) && mask + 1 <= size / elem < 2 * (mask + 1)
              else code == -EINVAL && mask == 0
    {
      var q := size / elem;
      QuotientFits(size, elem);
      var p := RoundDownPow2(q);
      if 1 <= q < 0x8000_0000 { RoundDownLow(q); } else { RoundDownOther(q); }
      inn, out, esize, data := 0, 0, elem, buffer;
      if p < 2 {
        mask := 0;
        return -EINVAL;
      }
      mask := p - 1;
      PowerDivides(p);
      BytesMono(p, q, elem);
      return 0;
    }

    /** kfifo_copy_in: two copies, the second from the start of the buffer. */
    method CopyIn(src: seq<Byte>, len: nat, off: nat)
      requires Fits() && Shape(Value()) && len <= mask + 1
      requires |src| == Bytes(len, esize) && |src| <= Bytes(mask + 1, esize)
      modifies data
      ensures data[..Bytes(mask + 1, esize)] == Copied(old(Value()), off, src)
      ensures forall j :: Bytes(mask + 1, esize) <= j < data.Length ==> data[j] == old(data[j])
    {
      hide Bytes, DividesWord;
      ghost var f := Value();
      OffBound(f, off); BytesMono(len, mask + 1, esize);
      BytesUnit(mask + 1); BytesUnit(off % (mask + 1)); BytesUnit(len);
      var size, o, n := mask + 1, off % (mask + 1), len;
      if esize != 1 { o, size, n := Bytes(o, esize), Bytes(size, esize), Bytes(n, esize); }
      assert o == Off(f, off) && size == |f.bytes| && n == |src|;
      var l := if n < size - o then n else size - o;
      forall i | 0 <= i < l { data[o + i] := src[i]; }
      forall i | 0 <= i < n - l { data[i] := src[l + i]; }
    }

    /** __kfifo_in: as many elements as fit, appended in order. */
    method In(buf: seq<Byte>, len: nat) returns (n: nat)
      requires Ok() && |buf| >= Bytes(len, esize)
      modifies this`inn, data
      ensures Ok() && n == (if len > Unused(old(Value())) then Unused(old(Value())) else len)
      ensures |buf| >= Bytes(n, esize) && Value() == Put(old(Value()), buf, n)
      ensures Contents(Value()) == Contents(old(Value())) + buf[..Bytes(n, esize)]
    {
      hide Bytes, DividesWord;
      ghost var f := Value();
      var l := mask + 1 - Sub32(inn, out);
      n := if len > l then l else len;
      BytesMono(n, len, esize); BytesMono(n, mask + 1, esize);
      PutContents(f, buf, n);
      CopyIn(buf[..Bytes(n, esize)], n, inn);
      inn := Add32(inn, n);
    }

    /** kfifo_copy_out: two copies into `dst`. */
    method CopyOut(dst: array<Byte>, len: nat, off: nat)
      requires Fits() && Shape(Value()) && len <= mask + 1 && dst != data
      requires Bytes(len, esize) <= dst.Length && Bytes(len, esize) <= Bytes(mask + 1, esize)
      modifies dst
      ensures dst[..Bytes(len, esize)] == From(Value(), off, Bytes(len, esize))
      ensures forall j :: Bytes(len, esize) <= j < dst.Length ==> dst[j] == old(dst[j])
    {
      hide Bytes, DividesWord;
      ghost var f := Value();
      OffBound(f, off);
      BytesUnit(mask + 1); BytesUnit(off % (mask + 1)); BytesUnit(len);
      var size, o, n := mask + 1, off % (mask + 1), len;
      if esize != 1 { o, size, n := Bytes(o, esize), Bytes(size, esize), Bytes(n, esize); }
      assert o == Off(f, off) && size == |f.bytes| && n == Bytes(len, esize);
      var l := if n < size - o then n else size - o;
      forall i | 0 <= i < l { dst[i] := data[o + i]; }
      forall i | 0 <= i < n - l { dst[l + i] := data[i]; }
    }

    /** __kfifo_out_peek: the oldest elements, left in place. */
    method OutPeek(dst: array<Byte>, len: nat) returns (n: nat)
      requires Ok() && dst != data && Bytes(len, esize) <= dst.Length
      modifies dst
      ensures Ok() && Value() == old(Value()) && n == (if len > Len(Value()) then Len(Value()) else len)
      ensures Bytes(n, esize) <= dst.Length && Bytes(n, esize) <= |Contents(Value())|
      ensures dst[..Bytes(n, esize)] == Contents(Value())[..Bytes(n, esize)]
      ensures forall j :: Bytes(n, esize) <= j < dst.Length ==> dst[j] == old(dst[j])
    {
      hide Bytes, DividesWord;
      ghost var f := Value();
      var l := Sub32(inn, out);
      n := if len > l then l else len;
      BytesMono(n, len, esize); BytesMono(n, l, esize); BytesMono(l, mask + 1, esize);
      OffBound(f, out);
      CopyOut(dst, n, out);
      ReadPrefix(f.bytes, Off(f, out), Bytes(l, esize), Bytes(n, esize));
    }

    /** __kfifo_out. */
    method Out(dst: array<Byte>, len: nat) returns (n: nat)
      requires Ok() && dst != data && Bytes(len, esize) <= dst.Length
      modifies this`out, dst
      ensures Ok() && n == (if len > Len(old(Value())) then Len(old(Value())) else len)
      ensures Bytes(n, esize) <= dst.Length && Bytes(n, esize) <= |Contents(old(Value()))|
      ensures dst[..Bytes(n, esize)] == Contents(old(Value()))[..Bytes(n, esize)]
      ensures Value() == Take(old(Value()), n) && Contents(Value()) == Contents(old(Value()))[Bytes(n, esize)..]
    {
      hide Bytes, DividesWord;
      n := OutPeek(dst, len);
      TakeContents(Value(), n);
      out := Add32(out, n);
    }

    /** kfifo_skip_n: unchecked. The fifo stays sound exactly if n elements are queued, or
        so many are skipped that the counter comes round again. */
    method SkipN(n: nat)
      requires Ok() && n < WORD
      modifies this`out
      ensures out == Add32(old(out), n) && (Ok() <==> n <= Len(old(Value())) || n >= WORD + Len(old(Value())) - (mask + 1))
      ensures n <= Len(old(Value())) ==> Value() == Take(old(Value()), n) && Bytes(n, esize) <= |Contents(old(Value()))|
      ensures n <= Len(old(Value())) ==> Contents(Value()) == Contents(old(Value()))[Bytes(n, esize)..]
    {
      hide Bytes, DividesWord;
      if n <= Len(Value()) { TakeContents(Value(), n); }
      out := Add32(out, n);
    }

    /** kfifo_reset_out. */
    method ResetOut()
      requires Ok()
      modifies this`out
      ensures Ok() && Len(Value()) == 0 && Contents(Value()) == []
    {
      out := inn;
      BytesSome(0, esize);
    }
  }

  lemma QuotientFits(size: nat, elem: nat)
    requires elem > 0
    ensures size / elem <= size && Bytes(size / elem, elem) <= size
  {
    var q := size / elem;
    assert size == q * elem + size % elem;
    AtLeastOne(elem, q);
    assert elem * q == q * elem;
  }
}
