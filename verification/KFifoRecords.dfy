/** Record mode of the kfifo: every record is stored behind its length in 1 or 2 bytes. */
module KFifoRecords {
  import opened Ring
  import opened KFifos

  // ---- records as bytes ---------------------------------------------------------

  function Limit(rs: nat): nat { if rs == 1 then 0x100 else 0x1_0000 }

  /** The length field: low byte first, the rest of the number is cut off. */
  function Header(n: nat, rs: nat): (h: seq<Byte>)
    requires 1 <= rs <= 2
    ensures |h| == rs
  {
    if rs == 1 then [n % 256] else [n % 256, n / 256 % 256]
  }

  function HeaderValue(b: seq<Byte>, rs: nat): nat
    requires 1 <= rs <= 2 && rs <= |b|
  {
    if rs == 1 then b[0] else b[0] as int + 256 * b[1] as int
  }

  lemma HeaderCut(n: nat, rs: nat, rest: seq<Byte>)
    requires 1 <= rs <= 2
    ensures HeaderValue(Header(n, rs) + rest, rs) == n % Limit(rs)
  {
    if rs == 2 { TwoBytes(n); }
  }

  lemma TwoBytes(n: nat)
    ensures n % 0x1_0000 == n % 256 + 256 * (n / 256 % 256)
  {
    var q, r := n / 256, n % 256;
    var u, v := q / 256, q % 256;
    assert n == 256 * q + r && q == 256 * u + v;
    DivUnique(n, 0x1_0000, u, r + 256 * v);
  }

  function Frame(r: seq<Byte>, rs: nat): seq<Byte>
    requires 1 <= rs <= 2
  { Header(|r|, rs) + r }

  function Pack(recs: seq<seq<Byte>>, rs: nat): seq<Byte>
    requires 1 <= rs <= 2
  {
    if recs == [] then [] else Frame(recs[0], rs) + Pack(recs[1..], rs)
  }

  /** What a reader makes of the queued bytes. */
  function Records(b: seq<Byte>, rs: nat): seq<seq<Byte>>
    requires 1 <= rs <= 2
  {
    if |b| < rs || |b| < rs + HeaderValue(b, rs) then []
    else var n := HeaderValue(b, rs); [b[rs..rs + n]] + Records(b[rs + n..], rs)
  }

  ghost predicate AllFit(recs: seq<seq<Byte>>, rs: nat) {
    forall i :: 0 <= i < |recs| ==> |recs[i]| < Limit(rs)
  }

  lemma FrameParses(r: seq<Byte>, rs: nat, tail: seq<Byte>)
    requires 1 <= rs <= 2 && |r| < Limit(rs)
    ensures Records(Frame(r, rs) + tail, rs) == [r] + Records(tail, rs)
  {
    var b := Frame(r, rs) + tail;
    assert b == Header(|r|, rs) + (r + tail);
    HeaderCut(|r|, rs, r + tail);
    assert HeaderValue(b, rs) == |r|;
    assert b[rs..rs + |r|] == r && b[rs + |r|..] == tail;
  }

  lemma {:induction false} PackParses(recs: seq<seq<Byte>>, rs: nat, tail: seq<Byte>)
    requires 1 <= rs <= 2 && AllFit(recs, rs)
    ensures Records(Pack(recs, rs) + tail, rs) == recs + Records(tail, rs)
  {
    hide Records, Frame;
    if recs == [] {
      assert Pack(recs, rs) + tail == tail;
    } else {
      var rest := Pack(recs[1..], rs);
      PackParses(recs[1..], rs, tail);
      assert Pack(recs, rs) + tail == Frame(recs[0], rs) + (rest + tail);
      FrameParses(recs[0], rs, rest + tail);
      assert recs == [recs[0]] + recs[1..];
    }
  }

  lemma {:induction false} PackAppend(recs: seq<seq<Byte>>, r: seq<Byte>, rs: nat)
    requires 1 <= rs <= 2
    ensures Pack(recs + [r], rs) == Pack(recs, rs) + Frame(r, rs)
  {
    hide Frame;
    if recs == [] {
      assert Pack([], rs) == [] && (recs + [r])[1..] == [];
    } else {
      PackAppend(recs[1..], r, rs);
      assert (recs + [r])[1..] == recs[1..] + [r];
    }
  }

  /** Appending a record is read back as that record exactly when its length fits the field. */
  lemma AppendReadsBack(recs: seq<seq<Byte>>, r: seq<Byte>, rs: nat)
    requires 1 <= rs <= 2 && AllFit(recs, rs)
    ensures Records(Pack(recs, rs) + Frame(r, rs), rs) == recs + [r] <==> |r| < Limit(rs)
  {
    PackParses(recs, rs, Frame(r, rs));
    if |r| < Limit(rs) {
      FrameParses(r, rs, []);
      assert Frame(r, rs) + [] == Frame(r, rs);
    } else {
      HeaderCut(|r|, rs, r);
      var got := Records(Frame(r, rs), rs);
      assert |got[0]| < |r|;
      assert (recs + got)[|recs|] == got[0] && (recs + [r])[|recs|] == r;
    }
  }

  // ---- the operations -------------------------------------------------------------

  /** The fifo holds exactly these records. */
  ghost predicate Holds(f: Fifo, recs: seq<seq<Byte>>, rs: nat) {
    1 <= rs <= 2 && f.esize == 1 && Valid(f) && AllFit(recs, rs) && Contents(f) == Pack(recs, rs)
  }

  lemma PeekByte(f: Fifo, k: nat)
    requires Valid(f) && f.esize == 1 && k < Len(f)
    ensures Len(f) == |Contents(f)| && Add32(f.out, k) % f.size < |f.bytes|
    ensures f.bytes[Add32(f.out, k) % f.size] == Contents(f)[k]
  {
    OffStep(f, f.out, k);
    OffBound(f, f.out);
  }

  /** Reading m bytes behind the length field. */
  lemma FromSkips(f: Fifo, rs: nat, m: nat)
    requires Valid(f) && f.esize == 1 && rs + m <= Len(f)
    ensures |Contents(f)| == Len(f) && m <= |f.bytes| && From(f, Add32(f.out, rs), m) == Contents(f)[rs..rs + m]
  {
    TakeContents(f, rs);
    var g := Take(f, rs);
    OffBound(g, g.out);
    ReadPrefix(g.bytes, Off(g, g.out), Len(g), m);
  }

  /** Poking the header and copying the body behind it is one append. */
  lemma CopiedTwice(f: Fifo, h: seq<Byte>, b: seq<Byte>)
    requires Valid(f) && f.esize == 1 && |h| + |b| <= Unused(f)
    ensures Copied(f.(bytes := Copied(f, f.inn, h)), Add32(f.inn, |h|), b) == Copied(f, f.inn, h + b)
  {
    OffBound(f, f.inn);
    OffStep(f, f.inn, |h|);
    if |h| == f.size {
      assert b == [] && h + b == h;
      var g := f.(bytes := Copied(f, f.inn, h));
      OffBound(g, Add32(f.inn, |h|));
      assert Write(g.bytes, Off(g, Add32(f.inn, |h|)), []) == g.bytes;
    } else {
      WriteTwice(f.bytes, Off(f, f.inn), h, b);
    }
  }

  /** __kfifo_poke_n: the length goes behind the queued bytes. */
  method PokeN(fifo: KFifo, n: nat, rs: nat)
    requires fifo.Ok() && fifo.esize == 1 && 1 <= rs <= 2 && rs <= Unused(fifo.Value())
    modifies fifo.data
    ensures fifo.Ok() && fifo.Value() == old(fifo.Value()).(bytes := Copied(old(fifo.Value()), fifo.inn, Header(n, rs)))
  {
    ghost var f := fifo.Value();
    var size := fifo.mask + 1;
    PokeHeader(f, n, rs);
    hide Copied, Header, Bytes, DividesWord;
    fifo.data[fifo.inn % size] := n % 256;
    if rs > 1 {
      fifo.data[Add32(fifo.inn, 1) % size] := n / 256 % 256;
    }
  }

  lemma PokeHeader(f: Fifo, n: nat, rs: nat)
    requires Valid(f) && f.esize == 1 && 1 <= rs <= 2 && rs <= f.size
    ensures f.inn % f.size < |f.bytes| && (rs > 1 ==> Add32(f.inn, 1) % f.size < |f.bytes|)
    ensures var one := f.bytes[f.inn % f.size := n % 256];
      Copied(f, f.inn, Header(n, rs)) == if rs == 1 then one else one[Add32(f.inn, 1) % f.size := n / 256 % 256]
  {
    BytesUnit(f.size);
    OffBound(f, f.inn);
    OffStep(f, f.inn, 1);
  }

  /** The bytes at the out-counter read as a length field, queued or not. */
  ghost function Field(f: Fifo, rs: nat): (n: nat)
    requires Shape(f) && f.esize == 1 && 1 <= rs <= 2
    ensures n < Limit(rs)
  {
    BytesUnit(f.size);
    f.bytes[f.out % f.size] as int + (if rs > 1 then 256 * f.bytes[Add32(f.out, 1) % f.size] as int else 0)
  }

  /** __kfifo_peek_n: the length field of the oldest record; it is read without a test whether
      there is one. */
  method PeekN(fifo: KFifo, rs: nat) returns (n: nat)
    requires fifo.Ok() && fifo.esize == 1 && 1 <= rs <= 2
    ensures n == Field(fifo.Value(), rs)
    ensures rs <= Len(fifo.Value()) ==>
      |Contents(fifo.Value())| == Len(fifo.Value()) && n == HeaderValue(Contents(fifo.Value()), rs)
  {
    ghost var f := fifo.Value();
    var size := fifo.mask + 1;
    BytesUnit(size);
    if rs <= Len(f) { PeekHeader(f, rs); }
    hide Contents, HeaderValue, Bytes;
    n := fifo.data[fifo.out % size];
    if rs > 1 {
      n := n + 256 * (fifo.data[Add32(fifo.out, 1) % size] as int);
    }
  }

  lemma PeekHeader(f: Fifo, rs: nat)
    requires Valid(f) && f.esize == 1 && 1 <= rs <= 2 && rs <= Len(f)
    ensures |Contents(f)| == Len(f) && HeaderValue(Contents(f), rs) == Field(f, rs)
  {
    PeekByte(f, 0);
    if rs > 1 { PeekByte(f, 1); }
  }

  /** __kfifo_in_r: the whole record or nothing. */
  method InR(fifo: KFifo, buf: seq<Byte>, rs: nat) returns (n: nat)
    requires fifo.Ok() && fifo.esize == 1 && 1 <= rs <= 2
    modifies fifo`inn, fifo.data
    ensures fifo.Ok()
    ensures if |buf| + rs > Unused(old(fifo.Value())) then n == 0 && fifo.Value() == old(fifo.Value())
            else n == |buf| && Contents(fifo.Value()) == Contents(old(fifo.Value())) + Frame(buf, rs)
  {
    ghost var f := fifo.Value();
    if |buf| + rs > fifo.mask + 1 - Sub32(fifo.inn, fifo.out) { return 0; }
    AppendFrame(f, buf, rs);
    hide Copied, Header, Bytes, Frame, Contents;
    PokeN(fifo, |buf|, rs);
    fifo.CopyIn(buf, |buf|, Add32(fifo.inn, rs));
    fifo.inn := Add32(fifo.inn, |buf| + rs);
    return |buf|;
  }

  lemma AppendFrame(f: Fifo, buf: seq<Byte>, rs: nat)
    requires Valid(f) && f.esize == 1 && 1 <= rs <= 2 && |buf| + rs <= Unused(f)
    ensures |buf| <= |f.bytes| && Bytes(|buf|, 1) == |buf| && Bytes(f.size, 1) == f.size
    ensures var g := f.(bytes := Copied(f, f.inn, Header(|buf|, rs)));
      var r := Fifo(Add32(f.inn, |buf| + rs), f.out, f.size, 1, Copied(g, Add32(f.inn, rs), buf));
      Valid(r) && Contents(r) == Contents(f) + Frame(buf, rs)
  {
    var all := Frame(buf, rs);
    BytesUnit(|buf|); BytesUnit(|all|); BytesUnit(f.size);
    CopiedTwice(f, Header(|buf|, rs), buf);
    PutContents(f, all, |all|);
    assert all[..|all|] == all;
  }

  /** A record that fits its length field joins the queue of records. */
  lemma AppendHolds(f: Fifo, g: Fifo, recs: seq<seq<Byte>>, r: seq<Byte>, rs: nat)
    requires Holds(f, recs, rs) && g.esize == 1 && Valid(g) && Contents(g) == Contents(f) + Frame(r, rs)
    ensures Holds(g, recs + [r], rs) <==> |r| < Limit(rs)
  {
    hide Contents, Frame, Pack;
    PackAppend(recs, r, rs);
    if |r| >= Limit(rs) { assert (recs + [r])[|recs|] == r; }
  }

  /** The oldest record is its length field followed by its bytes. */
  lemma OldestRecord(f: Fifo, recs: seq<seq<Byte>>, rs: nat)
    requires Holds(f, recs, rs) && recs != []
    ensures 1 <= rs <= 2 && f.esize == 1 && Valid(f)
    ensures |Contents(f)| == Len(f) && rs + |recs[0]| <= Len(f)
    ensures HeaderValue(Contents(f), rs) == |recs[0]|
    ensures Contents(f)[rs..rs + |recs[0]|] == recs[0]
    ensures Contents(f)[rs + |recs[0]|..] == Pack(recs[1..], rs)
  {
    ContentsLength(f);
    hide Contents, Pack, HeaderValue, Valid;
    FirstFrame(recs, rs);
  }

  lemma FirstFrame(recs: seq<seq<Byte>>, rs: nat)
    requires 1 <= rs <= 2 && AllFit(recs, rs) && recs != []
    ensures var c, r := Pack(recs, rs), recs[0];
      && rs + |r| <= |c| && HeaderValue(c, rs) == |r|
      && c[rs..rs + |r|] == r && c[rs + |r|..] == Pack(recs[1..], rs)
  {
    var h, r, t := Header(|recs[0]|, rs), recs[0], Pack(recs[1..], rs);
    assert Pack(recs, rs) == (h + r) + t;
    HeaderCut(|r|, rs, r + t);
    hide Pack, Header, HeaderValue;
    ThreeParts(h, r, t);
  }

  lemma ThreeParts(h: seq<Byte>, r: seq<Byte>, t: seq<Byte>)
    ensures (h + r) + t == h + (r + t)
    ensures ((h + r) + t)[|h|..|h| + |r|] == r && ((h + r) + t)[|h| + |r|..] == t
  { }

  lemma FitTail(recs: seq<seq<Byte>>, rs: nat)
    requires AllFit(recs, rs) && recs != []
    ensures AllFit(recs[1..], rs)
  { }

  lemma ContentsLength(f: Fifo)
    requires Valid(f) && f.esize == 1
    ensures |Contents(f)| == Len(f)
  { }

  lemma DropOldest(f: Fifo, recs: seq<seq<Byte>>, rs: nat)
    requires Holds(f, recs, rs) && recs != []
    ensures rs + |recs[0]| <= Len(f) && Holds(Take(f, rs + |recs[0]|), recs[1..], rs)
  {
    hide Contents, Pack, Bytes, AllFit, HeaderValue, DividesWord;
    OldestRecord(f, recs, rs);
    FitTail(recs, rs);
    var n := rs + |recs[0]|;
    BytesUnit(n);
    TakeContents(f, n);
  }

  lemma SkipFacts(f: Fifo, recs: seq<seq<Byte>>, rs: nat)
    requires Holds(f, recs, rs) && recs != []
    ensures 1 <= rs <= 2 && rs + |recs[0]| <= Len(f) && |Contents(f)| == Len(f) && HeaderValue(Contents(f), rs) == |recs[0]|
    ensures Holds(Take(f, rs + |recs[0]|), recs[1..], rs)
  {
    hide *;
    OldestRecord(f, recs, rs);
    DropOldest(f, recs, rs);
  }

  lemma EmptyIffNone(f: Fifo, recs: seq<seq<Byte>>, rs: nat)
    requires Holds(f, recs, rs)
    ensures f.inn == f.out <==> recs == []
  { }

  /** The copy of kfifo_out_copy_r: n bytes behind the length field. */
  method CopyBody(fifo: KFifo, dst: array<Byte>, n: nat, rs: nat)
    requires fifo.Ok() && fifo.esize == 1 && rs + n <= Len(fifo.Value()) && dst != fifo.data && n <= dst.Length
    modifies dst
    ensures fifo.Ok() && fifo.Value() == old(fifo.Value())
    ensures |Contents(fifo.Value())| == Len(fifo.Value()) && dst[..n] == Contents(fifo.Value())[rs..rs + n]
  {
    ghost var f := fifo.Value();
    hide Contents, Bytes, DividesWord, From;
    FromSkips(f, rs, n);
    BytesUnit(n); BytesUnit(fifo.mask + 1);
    fifo.CopyOut(dst, n, Add32(fifo.out, rs));
    assert fifo.Value().bytes == f.bytes;
  }

  /** __kfifo_out_peek_r: a prefix of the oldest record, as long as the reader asks for. */
  method OutPeekR(fifo: KFifo, dst: array<Byte>, len: nat, rs: nat, ghost recs: seq<seq<Byte>>) returns (n: nat)
    requires fifo.Ok() && fifo.esize == 1 && Holds(fifo.Value(), recs, rs) && dst != fifo.data && len <= dst.Length
    modifies dst
    ensures fifo.Ok() && fifo.Value() == old(fifo.Value())
    ensures if recs == [] then n == 0
            else n == (if len > |recs[0]| then |recs[0]| else len) && dst[..n] == recs[0][..n]
  {
    hide Contents, Pack, HeaderValue, Holds, DividesWord, Bytes;
    ghost var f := fifo.Value();
    EmptyIffNone(f, recs, rs);
    if fifo.inn == fifo.out { return 0; }
    hide *;
    OldestRecord(f, recs, rs);
    var l := PeekN(fifo, rs);
    n := if len > l then l else len;
    CopyBody(fifo, dst, n, rs);
    assert Contents(f)[rs..rs + n] == Contents(f)[rs..rs + l][..n];
  }

  /** __kfifo_out_r: that prefix, and the whole record is gone. */
  method OutR(fifo: KFifo, dst: array<Byte>, len: nat, rs: nat, ghost recs: seq<seq<Byte>>) returns (n: nat)
    requires fifo.Ok() && fifo.esize == 1 && Holds(fifo.Value(), recs, rs) && dst != fifo.data && len <= dst.Length
    modifies fifo`out, dst
    ensures fifo.Ok()
    ensures if recs == [] then n == 0 && fifo.Value() == old(fifo.Value())
            else n == (if len > |recs[0]| then |recs[0]| else len) && dst[..n] == recs[0][..n]
                 && Holds(fifo.Value(), recs[1..], rs)
  {
    hide Contents, Pack, HeaderValue, Holds, DividesWord, Bytes;
    EmptyIffNone(fifo.Value(), recs, rs);
    if fifo.inn == fifo.out { return 0; }
    hide *;
    OldestRecord(fifo.Value(), recs, rs);
    n := OutPeekR(fifo, dst, len, rs, recs);
    SkipR(fifo, rs, recs);
  }

  /** __kfifo_skip_r: unchecked. The out-counter moves by what reads as a length field, and the
      fifo stays sound exactly if so many bytes are queued, which on an empty fifo is never the
      case; of queued records exactly the oldest is dropped. */
  method SkipR(fifo: KFifo, rs: nat, ghost recs: seq<seq<Byte>>)
    requires fifo.Ok() && fifo.esize == 1 && 1 <= rs <= 2
    modifies fifo`out
    ensures fifo.out == Add32(old(fifo.out), rs + Field(old(fifo.Value()), rs))
    ensures fifo.Ok() <==> rs + Field(old(fifo.Value()), rs) <= Len(old(fifo.Value()))
    ensures Len(old(fifo.Value())) == 0 ==> !fifo.Ok()
    ensures Holds(old(fifo.Value()), recs, rs) && recs != [] ==> fifo.Ok() && Holds(fifo.Value(), recs[1..], rs)
  {
    hide Contents, Pack, HeaderValue, Holds, DividesWord, Bytes, Take, AllFit, Field;
    ghost var f := fifo.Value();
    if Holds(f, recs, rs) && recs != [] { SkipFacts(f, recs, rs); }
    FarFromRound(f);
    var l := PeekN(fifo, rs);
    fifo.SkipN(rs + l);
  }

  /** A record is never so long that skipping it brings the counter round again. */
  lemma FarFromRound(f: Fifo)
    requires Valid(f)
    ensures WORD + Len(f) - f.size > 2 + 0x1_0000
  {
    HalfWord(f.size);
  }

  lemma HalfWord(size: nat)
    requires 0 < size < WORD && DividesWord(size)
    ensures size <= WORD / 2
  {
    var q := WORD / size;
    assert WORD == q * size;
    if q == 1 { assert false; }
    assert q >= 2;
    AtLeastOne(q - 1, size);
  }
}
