/** The log block header as the bytes the logger copies into its fifo. */
module LogCodec {
  import opened Ring

  const HEADER: nat := 312
  const MAX_BLOCK: nat := 0x10_0000
  const TOKEN_START: nat := 0x1_2345_6789
  const TOKEN_END: nat := 0xf_edcb_a987
  const CMD_LOG: nat := 1

  /** ST_BufferLogBlock; `rest` is time, line, file and function. */
  datatype Block = Block(cmd: nat, logType: nat, msgLen: nat, pad: seq<Byte>, start: nat, end: nat, rest: seq<Byte>)

  /** n fits into w bytes. */
  predicate FitsIn(n: nat, w: nat) { if w == 0 then n == 0 else FitsIn(n / 256, w - 1) }

  function Little(n: nat, w: nat): (b: seq<Byte>)
    ensures |b| == w
  {
    if w == 0 then [] else [n % 256] + Little(n / 256, w - 1)
  }

  function Number(b: seq<Byte>): nat {
    if b == [] then 0 else b[0] as int + 256 * Number(b[1..])
  }

  lemma {:induction false} LittleNumber(n: nat, w: nat)
    requires FitsIn(n, w)
    ensures Number(Little(n, w)) == n
  {
    if w > 0 {
      LittleNumber(n / 256, w - 1);
      assert Little(n, w)[1..] == Little(n / 256, w - 1);
    }
  }

  ghost predicate WellFormed(b: Block) {
    && FitsIn(b.cmd, 4) && FitsIn(b.logType, 4) && FitsIn(b.msgLen, 4) && |b.pad| == 4
    && FitsIn(b.start, 8) && FitsIn(b.end, 8) && |b.rest| == HEADER - 32
  }

  function Encode(b: Block): seq<Byte> {
    Little(b.cmd, 4) + (Little(b.logType, 4) + (Little(b.msgLen, 4) + (b.pad +
      (Little(b.start, 8) + (Little(b.end, 8) + b.rest)))))
  }

  function Decode(s: seq<Byte>): Block
    requires |s| == HEADER
  {
    Block(Number(s[..4]), Number(s[4..8]), Number(s[8..12]), s[12..16], Number(s[16..24]), Number(s[24..32]), s[32..])
  }

  /** Reading the header back gives the block that was written. */
  lemma DecodeEncode(b: Block)
    requires WellFormed(b)
    ensures |Encode(b)| == HEADER && Decode(Encode(b)) == b
  {
    hide Little, Number, FitsIn;
    LittleNumber(b.cmd, 4); LittleNumber(b.logType, 4); LittleNumber(b.msgLen, 4);
    LittleNumber(b.start, 8); LittleNumber(b.end, 8);
    var s := Encode(b);
    assert s[..4] == Little(b.cmd, 4);
    assert s[4..8] == Little(b.logType, 4);
    assert s[8..12] == Little(b.msgLen, 4);
    assert s[12..16] == b.pad;
    assert s[16..24] == Little(b.start, 8);
    assert s[24..32] == Little(b.end, 8);
    assert s[32..] == b.rest;
  }

  /** An int32_t read from 4 bytes. */
  function Signed(n: nat): int { if n < 0x8000_0000 then n else n - 0x1_0000_0000 }

  /** The reader's test for damaged data. */
  predicate Damaged(b: Block) {
    b.start != TOKEN_START || b.end != TOKEN_END || Signed(b.msgLen) >= MAX_BLOCK
  }

  lemma {:induction false} NumberLittle(b: seq<Byte>)
    ensures Little(Number(b), |b|) == b
  {
    if b != [] {
      NumberLittle(b[1..]);
      var n, rest := Number(b), Number(b[1..]);
      assert n % 256 == b[0] as int && n / 256 == rest;
      assert b == [b[0]] + b[1..];
    }
  }

  /** The top bit of an int32_t is that of its last byte. */
  lemma SignByte(b: seq<Byte>)
    requires |b| == 4
    ensures Number(b) >= 0x8000_0000 <==> b[3] >= 128
    ensures Number(b) < 0x1_0000_0000
  {
    assert b[1..][1..][1..][1..] == [] && b[1..][1..][1..][0] == b[3];
    assert Number(b[1..][1..][1..]) == b[3];
    assert Number(b[1..][1..]) == b[2] as int + 256 * b[3] as int;
    assert Number(b[1..]) == b[1] as int + 256 * (b[2] as int + 256 * b[3] as int);
  }

  /** The bytes the reader's test lets through: both tokens in their places, and a length that is below
      the limit or has its top bit set. */
  predicate LetThrough(s: seq<Byte>) {
    && |s| == HEADER && s[16..24] == Little(TOKEN_START, 8) && s[24..32] == Little(TOKEN_END, 8)
    && (s[11] >= 128 || Number(s[8..12]) < MAX_BLOCK)
  }

  lemma DamagedIff(s: seq<Byte>)
    requires |s| == HEADER
    ensures Damaged(Decode(s)) <==> !LetThrough(s)
  {
    TokensFit();
    LittleNumber(TOKEN_START, 8);
    LittleNumber(TOKEN_END, 8);
    NumberLittle(s[16..24]);
    NumberLittle(s[24..32]);
    SignByte(s[8..12]);
    hide Little, Number;
  }

  lemma TokensFit()
    ensures FitsIn(TOKEN_START, 8) && FitsIn(TOKEN_END, 8)
  { }
}
