/**
  * The wire format of the game packets (network/unpack.h, network/packet.h) and the decoding
  * of a byte stream (network/context.h), as functions on byte strings.
  */
module PacketCodec {
  import opened Ring

  const HEADER: int := 4
  const TAIL: int := 8
  const MAX_BODY: int := 10240
  const BUFFER: nat := 102400

  // ---- integers -------------------------------------------------------------------------

  function Pow(w: nat): (p: int)
    ensures p > 0 && (w > 0 ==> p % 2 == 0)
  {
    if w == 0 then 1 else 256 * Pow(w - 1)
  }

  /** The `w` low bytes of a number, most significant first. */
  function Big(n: nat, w: nat): (b: seq<Byte>)
    ensures |b| == w
  {
    if w == 0 then [] else Big(n / 256, w - 1) + [n % 256]
  }

  function Value(b: seq<Byte>): nat {
    if b == [] then 0 else 256 * Value(b[..|b| - 1]) + b[|b| - 1]
  }

  lemma {:induction false} ValueBig(n: nat, w: nat)
    requires n < Pow(w)
    ensures Value(Big(n, w)) == n
  {
    if w > 0 {
      ValueBig(n / 256, w - 1);
      assert Big(n, w)[..w - 1] == Big(n / 256, w - 1);
    }
  }

  lemma {:induction false} ValueBound(b: seq<Byte>)
    ensures Value(b) < Pow(|b|)
  {
    if b != [] { ValueBound(b[..|b| - 1]); }
  }

  lemma ModRange(v: int, m: nat)
    requires m > 0
    ensures 0 <= v % m < m
  { }

  /** PackInt: an integer is cut to `w` bytes in network order. */
  function PackInt(v: int, w: nat): (b: seq<Byte>)
    ensures |b| == w
  {
    ModRange(v, Pow(w));
    Big(v % Pow(w), w)
  }

  /** UnpackInt: `w` bytes in network order as a signed integer. */
  function UnpackInt(b: seq<Byte>): int {
    var u := Value(b);
    if 2 * u >= Pow(|b|) then u - Pow(|b|) else u
  }

  /** Reading back a packed integer gives it again exactly if it fits the signed type. */
  lemma UnpackPack(v: int, w: nat)
    requires w > 0
    ensures UnpackInt(PackInt(v, w)) == v <==> -Pow(w) <= 2 * v < Pow(w)
  {
    ModRange(v, Pow(w));
    var u := v % Pow(w);
    ValueBig(u, w);
    if -Pow(w) <= 2 * v < Pow(w) {
      if v < 0 { DivUnique(v, Pow(w), -1, v + Pow(w)); } else { DivUnique(v, Pow(w), 0, v); }
    }
  }

  lemma Pow2()
    ensures Pow(2) == 0x1_0000
  { }

  lemma UnpackRange(b: seq<Byte>)
    requires |b| == 2
    ensures -0x8000 <= UnpackInt(b) < 0x8000
  {
    ValueBound(b);
    Pow2();
  }

  // ---- the stream ---------------------------------------------------------------------

  datatype Packet = Packet(proto: int, body: seq<Byte>)

  /** Packets found, the return code (0, -2 or -3), and the bytes not used up. */
  datatype Decoded = Decoded(packets: seq<Packet>, code: int, rest: seq<Byte>)

  function SizeField(s: seq<Byte>): int
    requires |s| >= HEADER
  {
    UnpackInt(s[..2])
  }

  function ProtoField(s: seq<Byte>): int
    requires |s| >= HEADER
  {
    UnpackInt(s[2..4])
  }

  /** Not enough bytes for the next packet, or a size below the header's own. */
  predicate Stops(s: seq<Byte>) {
    |s| < HEADER || |s| < SizeField(s) || SizeField(s) < HEADER
  }

  function Decode(s: seq<Byte>): (d: Decoded)
    ensures |d.rest| <= |s|
    ensures d.code == 0 ==> Stops(d.rest)
  {
    if Stops(s) then Decoded([], 0, s)
    else
      var size := SizeField(s);
      if size - HEADER <= 0 then Decoded([], -2, s)
      else if MAX_BODY < size - HEADER then Decoded([], -3, s)
      else
        var d := Decode(s[size..]);
        d.(packets := [Packet(ProtoField(s), s[HEADER..size])] + d.packets)
  }

  lemma DecodeStep(s: seq<Byte>)
    requires !Stops(s) && 0 < SizeField(s) - HEADER <= MAX_BODY
    ensures Decode(s).packets == [Packet(ProtoField(s), s[HEADER..SizeField(s)])] + Decode(s[SizeField(s)..]).packets
    ensures Decode(s).code == Decode(s[SizeField(s)..]).code && Decode(s).rest == Decode(s[SizeField(s)..]).rest
  { }

  lemma DecodeStops(s: seq<Byte>)
    requires Stops(s) || SizeField(s) - HEADER <= 0 || MAX_BODY < SizeField(s) - HEADER
    ensures Decode(s) == Decoded([], if Stops(s) then 0 else if SizeField(s) - HEADER <= 0 then -2 else -3, s)
  { }

  lemma FieldsAgree(a: seq<Byte>, b: seq<Byte>)
    requires |a| >= HEADER
    ensures SizeField(a + b) == SizeField(a) && ProtoField(a + b) == ProtoField(a)
  {
    assert (a + b)[..2] == a[..2];
    assert (a + b)[2..4] == a[2..4];
  }

  /** Decoding a longer stream: what was found stays found, an error stays, and decoding goes
      on with what was left. */
  lemma {:induction false} DecodeJoin(a: seq<Byte>, b: seq<Byte>)
    ensures Decode(a).code != 0 ==> Decode(a + b).packets == Decode(a).packets && Decode(a + b).code == Decode(a).code
    ensures Decode(a).code == 0 ==> Decode(a + b).packets == Decode(a).packets + Decode(Decode(a).rest + b).packets
    ensures Decode(a).code == 0 ==> Decode(a + b).code == Decode(Decode(a).rest + b).code
    ensures Decode(a).code == 0 ==> Decode(a + b).rest == Decode(Decode(a).rest + b).rest
    decreases |a|
  {
    hide SizeField, ProtoField, Decode;
    if Stops(a) {
      DecodeStops(a);
    } else {
      FieldsAgree(a, b);
      var size := SizeField(a);
      if 0 < size - HEADER <= MAX_BODY {
        assert (a + b)[size..] == a[size..] + b;
        assert (a + b)[HEADER..size] == a[HEADER..size];
        DecodeJoin(a[size..], b);
        DecodeStep(a);
        DecodeStep(a + b);
      } else {
        DecodeStops(a);
        DecodeStops(a + b);
      }
    }
  }

  function Concat(chunks: seq<seq<Byte>>): seq<Byte> {
    if chunks == [] then [] else Concat(chunks[..|chunks| - 1]) + chunks[|chunks| - 1]
  }

  /** Receiving one chunk after another; an error ends the connection. */
  function Receive(chunks: seq<seq<Byte>>): Decoded {
    if chunks == [] then Decoded([], 0, [])
    else
      var d := Receive(chunks[..|chunks| - 1]);
      if d.code != 0 then d
      else
        var e := Decode(d.rest + chunks[|chunks| - 1]);
        e.(packets := d.packets + e.packets)
  }

  /** However the stream is cut, the outcome is that of decoding it in one go. */
  lemma {:induction false} ReceiveIsDecode(chunks: seq<seq<Byte>>)
    ensures Receive(chunks).packets == Decode(Concat(chunks)).packets
    ensures Receive(chunks).code == Decode(Concat(chunks)).code
    ensures Receive(chunks).code == 0 ==> Receive(chunks).rest == Decode(Concat(chunks)).rest
    decreases |chunks|
  {
    if chunks != [] {
      var front, last := chunks[..|chunks| - 1], chunks[|chunks| - 1];
      ReceiveIsDecode(front);
      DecodeJoin(Concat(front), last);
    }
  }

  /** Two ways of cutting the same stream cannot be told apart. */
  lemma ChunkingIrrelevant(a: seq<seq<Byte>>, b: seq<seq<Byte>>)
    requires Concat(a) == Concat(b)
    ensures Receive(a).packets == Receive(b).packets && Receive(a).code == Receive(b).code
    ensures Receive(a).code == 0 ==> Receive(a).rest == Receive(b).rest
  {
    ReceiveIsDecode(a);
    ReceiveIsDecode(b);
  }

  // ---- what is left over ------------------------------------------------------------------

  /** The bytes seen of the next size field already say that it is below 4: it is negative by its
      first byte, or complete and too small. */
  predicate Doomed(s: seq<Byte>) {
    (|s| >= 1 && s[0] >= 128) || (|s| >= 2 && UnpackInt(s[..2]) < HEADER)
  }

  lemma TwoBytes(b: seq<Byte>)
    requires |b| == 2
    ensures UnpackInt(b) == b[0] as int * 256 + b[1] as int - (if b[0] >= 128 then 0x1_0000 else 0)
  {
    assert b[..1][..0] == [];
    assert Value(b[..1]) == b[0];
    Pow2();
  }

  lemma DoomedSize(s: seq<Byte>)
    requires |s| >= 2
    ensures Doomed(s) <==> UnpackInt(s[..2]) < HEADER
  {
    TwoBytes(s[..2]);
  }

  /** Whatever follows, nothing is decoded and no error is reported. */
  lemma DoomedStays(s: seq<Byte>, b: seq<Byte>)
    requires Doomed(s)
    ensures Doomed(s + b) && Decode(s + b) == Decoded([], 0, s + b)
  {
    hide UnpackInt, Decode;
    if |s| >= 2 { assert (s + b)[..2] == s[..2]; }
    if |s + b| >= HEADER { DoomedSize(s + b); }
    DecodeStops(s + b);
  }

  /** `n` zero bytes. */
  function Zeros(n: nat): seq<Byte> { seq(n, _ => 0) }

  /** With a size field of 4 or more and that many bytes behind it, there is a packet or an error. */
  lemma SizedDecodes(s: seq<Byte>)
    requires |s| >= 2 && HEADER <= UnpackInt(s[..2]) <= |s|
    ensures Decode(s).packets != [] || Decode(s).code != 0
  {
    hide UnpackInt, Decode;
    if 0 < SizeField(s) - HEADER <= MAX_BODY { DecodeStep(s); } else { DecodeStops(s); }
  }

  /** Otherwise some continuation is decoded, or reported as an error. */
  lemma HopefulDecodes(s: seq<Byte>) returns (b: seq<Byte>)
    requires !Doomed(s)
    ensures Decode(s + b).packets != [] || Decode(s + b).code != 0
  {
    var head: seq<Byte> := if |s| == 0 then [0, 5] else if |s| == 1 then [255] else [];
    var t := s + head;
    TwoBytes(t[..2]);
    assert |s| >= 2 ==> t[..2] == s[..2];
    hide UnpackInt, Decode;
    var tail := Zeros(UnpackInt(t[..2]));
    b := head + tail;
    assert s + b == t + tail && (t + tail)[..2] == t[..2];
    SizedDecodes(s + b);
  }

  /** Nothing that follows `s` is decoded any more. */
  ghost predicate Stalled(s: seq<Byte>) {
    forall b: seq<Byte> :: Decode(s + b).packets == Decode(s).packets && Decode(s + b).code == 0
  }

  /** A connection stalls for good if and only if the bytes left begin with a size field below 4,
      or with the first byte of a negative one. */
  lemma StalledIffDoomed(s: seq<Byte>)
    requires Decode(s).code == 0
    ensures Stalled(s) <==> Doomed(Decode(s).rest)
  {
    hide Decode, Doomed;
    var rest := Decode(s).rest;
    if Doomed(rest) {
      forall b: seq<Byte> ensures Decode(s + b).packets == Decode(s).packets && Decode(s + b).code == 0 {
        DecodeJoin(s, b);
        DoomedStays(rest, b);
      }
    } else {
      var b := HopefulDecodes(rest);
      DecodeJoin(s, b);
    }
  }

  /** Unless the stream is stalled, at most 32766 bytes wait, so 69634 of the buffer are free. */
  lemma RestBound(s: seq<Byte>)
    requires Decode(s).code == 0
    ensures Doomed(Decode(s).rest) || (|Decode(s).rest| <= 32766 && BUFFER - |Decode(s).rest| >= 69634)
    ensures |Decode(s).rest| < HEADER || Doomed(Decode(s).rest) || |Decode(s).rest| < SizeField(Decode(s).rest)
  {
    var r := Decode(s).rest;
    if |r| >= HEADER { UnpackRange(r[..2]); }
  }

  // ---- sending ------------------------------------------------------------------------------

  /** PacketBufferSend: header, body, and the time stamp as tail. */
  function Encode(p: Packet, stamp: nat): (b: seq<Byte>)
    ensures |b| == HEADER + |p.body| + TAIL
  {
    PackInt(|p.body| + HEADER + TAIL, 2) + PackInt(p.proto, 2) + p.body + PackInt(stamp, 8)
  }

  /** What the other side sees: the time stamp arrives at the end of the body. */
  function Received(p: Packet, stamp: nat): Packet { Packet(p.proto, p.body + PackInt(stamp, 8)) }

  predicate Proto16(p: Packet) { -0x8000 <= p.proto < 0x8000 }

  lemma EncodeFields(p: Packet, stamp: nat, b: seq<Byte>)
    ensures SizeField(Encode(p, stamp) + b) == UnpackInt(PackInt(|p.body| + HEADER + TAIL, 2))
    ensures ProtoField(Encode(p, stamp) + b) == UnpackInt(PackInt(p.proto, 2))
  {
    var s := Encode(p, stamp) + b;
    assert s[..2] == PackInt(|p.body| + HEADER + TAIL, 2);
    assert s[2..4] == PackInt(p.proto, 2);
  }

  /** An encoded packet with a small body, and what follows it, as the decoder finds them. */
  lemma EncodeParts(p: Packet, stamp: nat, b: seq<Byte>)
    requires |p.body| <= MAX_BODY - TAIL && Proto16(p)
    ensures var s, size := Encode(p, stamp) + b, |p.body| + HEADER + TAIL;
      && SizeField(s) == size <= |s| && ProtoField(s) == p.proto
      && s[HEADER..size] == p.body + PackInt(stamp, 8) && s[size..] == b
  {
    EncodeFields(p, stamp, b);
    Pow2();
    UnpackPack(|p.body| + HEADER + TAIL, 2);
    UnpackPack(p.proto, 2);
    hide SizeField, ProtoField, UnpackInt, PackInt;
  }

  /** One packet in front of a stream is decoded first, if its body has at most 10232 bytes. */
  lemma DecodeFirst(p: Packet, stamp: nat, b: seq<Byte>)
    requires |p.body| <= MAX_BODY - TAIL && Proto16(p)
    ensures Decode(Encode(p, stamp) + b).packets == [Received(p, stamp)] + Decode(b).packets
    ensures Decode(Encode(p, stamp) + b).code == Decode(b).code && Decode(Encode(p, stamp) + b).rest == Decode(b).rest
  {
    hide Decode, Encode, SizeField, ProtoField, PackInt;
    EncodeParts(p, stamp, b);
    DecodeStep(Encode(p, stamp) + b);
  }

  function EncodeAll(ps: seq<(Packet, nat)>): seq<Byte> {
    if ps == [] then [] else Encode(ps[0].0, ps[0].1) + EncodeAll(ps[1..])
  }

  function ReceivedAll(ps: seq<(Packet, nat)>): seq<Packet> {
    if ps == [] then [] else [Received(ps[0].0, ps[0].1)] + ReceivedAll(ps[1..])
  }

  /** Any list of packets survives the wire, with nothing left over. */
  lemma {:induction false} DecodeEncodeAll(ps: seq<(Packet, nat)>)
    requires forall k :: 0 <= k < |ps| ==> |ps[k].0.body| <= MAX_BODY - TAIL && Proto16(ps[k].0)
    ensures Decode(EncodeAll(ps)) == Decoded(ReceivedAll(ps), 0, [])
  {
    if ps != [] {
      DecodeEncodeAll(ps[1..]);
      DecodeFirst(ps[0].0, ps[0].1, EncodeAll(ps[1..]));
    }
  }

  /** A packet survives the wire exactly if its body has at most 10232 bytes and its protocol
      number fits 16 bits. */
  lemma EncodeExact(p: Packet, stamp: nat)
    ensures Decode(Encode(p, stamp)) == Decoded([Received(p, stamp)], 0, []) <==> |p.body| <= MAX_BODY - TAIL && Proto16(p)
  {
    var s := Encode(p, stamp);
    assert s + [] == s;
    if |p.body| <= MAX_BODY - TAIL && Proto16(p) {
      DecodeFirst(p, stamp, []);
    } else {
      EncodeFields(p, stamp, []);
      Pow2();
      UnpackPack(p.proto, 2);
      hide SizeField, ProtoField, UnpackInt, PackInt;
      if Stops(s) || SizeField(s) - HEADER <= 0 || MAX_BODY < SizeField(s) - HEADER {
        DecodeStops(s);
      } else {
        DecodeStep(s);
        assert Decode(s).packets[0] == Packet(ProtoField(s), s[HEADER..SizeField(s)]);
      }
    }
  }

  // ---- what is refused ------------------------------------------------------------------------

  /** The return code says what the bytes left over begin with: less than a whole packet or a size below
      the header's (0), a whole packet without a body (-2), or one whose body is over 10240 bytes (-3). */
  lemma {:induction false} CodeIff(s: seq<Byte>)
    ensures var d := Decode(s);
      && (d.code == 0 <==> Stops(d.rest))
      && (d.code == -2 <==> !Stops(d.rest) && SizeField(d.rest) == HEADER)
      && (d.code == -3 <==> !Stops(d.rest) && SizeField(d.rest) > HEADER + MAX_BODY)
      && (d.code == 0 || d.code == -2 || d.code == -3)
    decreases |s|
  {
    hide Decode, SizeField, ProtoField;
    if Stops(s) || SizeField(s) - HEADER <= 0 || MAX_BODY < SizeField(s) - HEADER {
      DecodeStops(s);
    } else {
      DecodeStep(s);
      CodeIff(s[SizeField(s)..]);
    }
  }

  lemma {:induction false} DecodeAfter(ps: seq<(Packet, nat)>, b: seq<Byte>)
    requires forall k :: 0 <= k < |ps| ==> |ps[k].0.body| <= MAX_BODY - TAIL && Proto16(ps[k].0)
    ensures Decode(EncodeAll(ps) + b) == Decoded(ReceivedAll(ps) + Decode(b).packets, Decode(b).code, Decode(b).rest)
  {
    hide Decode, Encode, Received, Stops;
    if ps == [] {
      assert EncodeAll(ps) + b == b && ReceivedAll(ps) + Decode(b).packets == Decode(b).packets;
    } else {
      var first, more := Encode(ps[0].0, ps[0].1), EncodeAll(ps[1..]);
      DecodeAfter(ps[1..], b);
      DecodeFirst(ps[0].0, ps[0].1, more + b);
      assert EncodeAll(ps) + b == first + (more + b);
      var x, r := [Received(ps[0].0, ps[0].1)], ReceivedAll(ps[1..]);
      assert x + (r + Decode(b).packets) == x + r + Decode(b).packets;
    }
  }

  /** A packet the sender makes too long (its body has 10233 to 32755 bytes) is reported with -3 behind the
      packets before it, whatever follows; it is never used up. */
  lemma OversizedReported(ps: seq<(Packet, nat)>, p: Packet, stamp: nat, b: seq<Byte>)
    requires forall k :: 0 <= k < |ps| ==> |ps[k].0.body| <= MAX_BODY - TAIL && Proto16(ps[k].0)
    requires MAX_BODY - TAIL < |p.body| <= 0x7FFF - HEADER - TAIL
    ensures Decode(EncodeAll(ps) + (Encode(p, stamp) + b)) == Decoded(ReceivedAll(ps), -3, Encode(p, stamp) + b)
  {
    var s := Encode(p, stamp) + b;
    EncodeFields(p, stamp, b);
    Pow2();
    UnpackPack(|p.body| + HEADER + TAIL, 2);
    hide Decode, Encode, SizeField, ProtoField, UnpackInt, PackInt, EncodeAll, ReceivedAll;
    DecodeStops(s);
    DecodeAfter(ps, s);
    assert ReceivedAll(ps) + [] == ReceivedAll(ps);
  }
}
