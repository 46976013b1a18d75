/**
  * The receive buffer of a client (network/context.h, network/libevent/libevent_ctx.h): bytes
  * are read behind what is left, decoded into packets of the prepare queue, and the rest is
  * moved to the front.
  */
module ClientBuffers {
  import opened Ring
  import opened PacketCodec

  datatype Header = NoPacket | BadPacket(code: int) | Found(size: nat, proto: int)

  function HeaderOf(s: seq<Byte>): (h: Header)
    ensures h.Found? ==> HEADER < h.size <= |s| && h.size <= MAX_BODY + HEADER
  {
    if Stops(s) then NoPacket
    else if SizeField(s) - HEADER <= 0 then BadPacket(-2)
    else if MAX_BODY < SizeField(s) - HEADER then BadPacket(-3)
    else Found(SizeField(s), ProtoField(s))
  }

  class ClientContextBuffer {
    const client: nat
    const fd: int
    const buffer: array<Byte>
    var size: nat

    predicate Valid()
      reads this
    {
      buffer.Length == BUFFER && size <= BUFFER
    }

    function Contents(): seq<Byte>
      requires Valid()
      reads this, buffer
    {
      buffer[..size]
    }

    constructor (client: nat, fd: int)
      ensures Valid() && Contents() == [] && fresh(buffer) && this.client == client && this.fd == fd
    {
      this.client, this.fd, this.size := client, fd, 0;
      buffer := new Byte[BUFFER](_ => 0);
    }

    /** PacketBufferRead: takes as much of what the connection offers as fits. */
    method PacketBufferRead(offered: seq<Byte>) returns (n: int)
      requires Valid()
      modifies this, buffer
      ensures Valid()
      ensures n == -1 <==> |old(Contents())| == BUFFER
      ensures n != -1 ==> 0 <= n <= |offered| && Contents() == old(Contents()) + offered[..n]
      ensures n != -1 ==> n == |offered| || |Contents()| == BUFFER
      ensures n == -1 ==> Contents() == old(Contents())
    {
      var space := BUFFER - size;
      if space <= 0 { return -1; }
      var len := if |offered| < space then |offered| else space;
      forall k | 0 <= k < len { buffer[size + k] := offered[k]; }
      size := size + len;
      assert Contents() == old(Contents()) + offered[..len];
      return len;
    }

    /** MoveBufferPtr: the rest goes to the front. */
    method MoveBufferPtr(pos: nat, left: int)
      requires Valid() && (left > 0 ==> pos + left <= buffer.Length)
      modifies this, buffer
      ensures Valid() && Contents() == if left > 0 then old(buffer[pos..pos + left]) else []
    {
      if left <= 0 {
        forall k | 0 <= k < buffer.Length { buffer[k] := 0; }
        size := 0;
        return;
      }
      forall k | 0 <= k < left { buffer[k] := buffer[pos + k]; }
      size := left;
    }

    /** The header at the read position: a whole packet, an error, or not enough bytes. */
    method ReadHeader(pos: nat) returns (h: Header)
      requires Valid() && pos <= size
      ensures h == HeaderOf(Contents()[pos..])
    {
      hide UnpackInt;
      var rest := buffer[pos..size];
      assert rest == Contents()[pos..];
      if |rest| < HEADER { return NoPacket; }
      var packetSize := UnpackInt(rest[..2]);
      if |rest| < packetSize || packetSize < HEADER { return NoPacket; }
      var proto := UnpackInt(rest[2..4]);
      var bodySize := packetSize - HEADER;
      if 0 >= bodySize { return BadPacket(-2); }
      if MAX_BODY < bodySize { return BadPacket(-3); }
      return Found(packetSize, proto);
    }

    /** The loop of UnpackPacketToRecvQueue: the packets for the prepare queue in order, the
        return code, and where the bytes not used up begin. */
    method FindPackets() returns (code: int, packets: seq<Packet>, pos: nat)
      requires Valid()
      ensures pos <= size && Decode(Contents()) == Decoded(packets, code, Contents()[pos..])
    {
      hide Decode, Progress, HeaderOf;
      ghost var all := Contents();
      ProgressFirst(all);
      code, packets, pos := 0, [], 0;
      while true
        invariant pos <= size && Progress(all, pos, packets) && code == 0
        decreases size - pos
      {
        var h := ReadHeader(pos);
        ProgressNext(all, pos, packets);
        if h.NoPacket? { return; }
        if h.BadPacket? { return h.code, packets, pos; }
        packets := packets + [Packet(h.proto, buffer[..size][pos + HEADER..pos + h.size])];
        pos := pos + h.size;
      }
    }

    /** UnpackPacketToRecvQueue up to PacketRecvPrepare: the bytes not used up are kept; after
        an error the buffer stays as it is. */
    method Unpack() returns (code: int, packets: seq<Packet>)
      requires Valid()
      modifies this, buffer
      ensures Valid()
      ensures Agrees(old(Contents()), packets, code, Contents()) && (code != 0 ==> Contents() == old(Contents()))
    {
      hide Decode;
      var pos;
      code, packets, pos := FindPackets();
      if code != 0 { return; }
      assert buffer[pos..size] == Contents()[pos..];
      MoveBufferPtr(pos, size - pos);
    }

    /** One read of what waits behind the bytes taken. */
    method Take(ghost start: seq<Byte>, input: seq<Byte>, taken: nat, ghost u: nat, ghost packets: seq<Packet>, ghost rest: seq<Byte>)
      returns (n: int, next: nat)
      requires Valid() && taken <= |input| && Reading(start + input, u, |start| + taken, packets, rest, Contents())
      modifies this, buffer
      ensures Valid() && taken <= next <= |input| && (n > 0 ==> next > taken)
      ensures Reading(start + input, u, |start| + next, packets, rest, Contents())
      ensures n <= 0 ==> next == taken && Contents() == old(Contents()) && (taken == |input| || |Contents()| == BUFFER)
    {
      hide Agrees;
      n := PacketBufferRead(input[taken..]);
      next := if n > 0 then taken + n else taken;
      assert n > 0 ==> input[taken..][..n] == (start + input)[|start| + taken..|start| + next];
    }

    /** OnBufferEventRead while `input` waits in the event buffer: read and unpack, read again,
        and repeat while that brought bytes. The packets and the code are those of decoding all
        that waits; bytes stay behind only if they can never be decoded. */
    method OnBufferEventRead(input: seq<Byte>) returns (code: int, packets: seq<Packet>, taken: nat)
      requires Valid()
      modifies this, buffer
      ensures Valid() && taken <= |input|
      ensures Agrees(old(Contents()) + input[..taken], packets, code, Contents())
      ensures code == 0 ==> taken == |input| || Jammed(Contents())
      ensures packets == Decode(old(Contents()) + input).packets && code == Decode(old(Contents()) + input).code
      ensures code == 0 ==> Contents() == Held(Decode(old(Contents()) + input).rest)
    {
      hide Decode, Agrees, Reading, Held, Jammed;
      ghost var start := Contents();
      ghost var all, u: nat, rest: seq<Byte> := start + input, 0, [];
      FirstRead(start, input);
      code, packets, taken := 0, [], 0;
      var n, more;
      while true
        invariant Valid() && taken <= |input| && code == 0
        invariant Reading(all, u, |start| + taken, packets, rest, Contents())
        decreases |input| - taken
      {
        n, taken := Take(start, input, taken, u, packets, rest);
        ghost var seen := Contents();
        code, more := Unpack();
        Unpacked(all, u, |start| + taken, packets, rest, seen, code, more, Contents());
        packets, u, rest := packets + more, |start| + taken, Contents();
        if code != 0 { break; }
        n, taken := Take(start, input, taken, u, packets, rest);
        if n <= 0 { break; }
      }
      ReadEnds(start, input, taken, packets, code, Contents());
    }
  }

  /** How far the decoding of `all` has come. */
  predicate Progress(all: seq<Byte>, pos: nat, done: seq<Packet>) {
    && pos <= |all|
    && Decode(all).packets == done + Decode(all[pos..]).packets
    && Decode(all).code == Decode(all[pos..]).code
    && Decode(all).rest == Decode(all[pos..]).rest
  }

  lemma ProgressFirst(all: seq<Byte>)
    ensures Progress(all, 0, [])
  {
    assert all[0..] == all;
  }

  lemma ProgressNext(all: seq<Byte>, pos: nat, done: seq<Packet>)
    requires Progress(all, pos, done)
    ensures match HeaderOf(all[pos..])
      case NoPacket => Decode(all) == Decoded(done, 0, all[pos..])
      case BadPacket(c) => Decode(all) == Decoded(done, c, all[pos..]) && c != 0
      case Found(size, proto) => Progress(all, pos + size, done + [Packet(proto, all[pos + HEADER..pos + size])])
  {
    hide Decode, SizeField, ProtoField;
    var rest := all[pos..];
    if HeaderOf(rest).Found? {
      var size := SizeField(rest);
      DecodeStep(rest);
      assert rest[size..] == all[pos + size..];
      assert rest[HEADER..size] == all[pos + HEADER..pos + size];
    } else {
      DecodeStops(rest);
    }
  }

  /** The outcome of decoding `s`; the bytes left matter only without an error. */
  predicate Agrees(s: seq<Byte>, packets: seq<Packet>, code: int, rest: seq<Byte>) {
    packets == Decode(s).packets && code == Decode(s).code && (code == 0 ==> rest == Decode(s).rest)
  }

  lemma AgreesNone(s: seq<Byte>)
    ensures Agrees(s[..0], [], 0, [])
  { }

  lemma AgreesNext(s: seq<Byte>, packets: seq<Packet>, rest: seq<Byte>, chunk: seq<Byte>,
                   code: int, more: seq<Packet>, left: seq<Byte>)
    requires Agrees(s, packets, 0, rest) && Agrees(rest + chunk, more, code, left)
    ensures Agrees(s + chunk, packets + more, code, left)
  {
    hide Decode;
    DecodeJoin(s, chunk);
  }

  /** A full buffer of which nothing will ever be decoded. */
  predicate Jammed(s: seq<Byte>) { |s| == BUFFER && Doomed(s) }

  /** What the buffer holds of the bytes not used up. */
  function Held(rest: seq<Byte>): seq<Byte> { if |rest| <= BUFFER then rest else rest[..BUFFER] }

  /** After decoding, the buffer is full only if the stream is stalled. */
  lemma RestJammed(s: seq<Byte>, packets: seq<Packet>, rest: seq<Byte>)
    requires Agrees(s, packets, 0, rest)
    ensures |rest| == BUFFER ==> Jammed(rest)
  {
    hide Decode;
    RestBound(s);
  }

  /** The bytes that were not taken make no difference to packets and code. */
  lemma TookAll(start: seq<Byte>, input: seq<Byte>, taken: nat, packets: seq<Packet>, code: int, rest: seq<Byte>)
    requires taken <= |input| && |rest| <= BUFFER && Agrees(start + input[..taken], packets, code, rest)
    requires code == 0 ==> taken == |input| || Jammed(rest)
    ensures packets == Decode(start + input).packets && code == Decode(start + input).code
    ensures code == 0 ==> rest == Held(Decode(start + input).rest)
  {
    hide Decode, Doomed;
    var seen, unseen := start + input[..taken], input[taken..];
    assert start + input == seen + unseen;
    DecodeJoin(seen, unseen);
    if code == 0 {
      if taken == |input| {
        assert seen == start + input;
      } else {
        DoomedStays(rest, unseen);
        assert Held(rest + unseen) == rest;
      }
    }
  }

  /** Of `all`, the first `v` bytes were read and the first `u` decoded; `rest` of them is left. */
  predicate Reading(all: seq<Byte>, u: nat, v: nat, packets: seq<Packet>, rest: seq<Byte>, contents: seq<Byte>) {
    u <= v <= |all| && Agrees(all[..u], packets, 0, rest) && contents == rest + all[u..v]
  }

  lemma FirstRead(start: seq<Byte>, input: seq<Byte>)
    ensures Reading(start + input, 0, |start|, [], [], start)
  {
    assert (start + input)[..0] == [] && (start + input)[0..|start|] == start;
  }

  lemma Unpacked(all: seq<Byte>, u: nat, v: nat, packets: seq<Packet>, rest: seq<Byte>, contents: seq<Byte>,
                 code: int, more: seq<Packet>, left: seq<Byte>)
    requires Reading(all, u, v, packets, rest, contents) && Agrees(contents, more, code, left)
    ensures Agrees(all[..v], packets + more, code, left)
    ensures code == 0 ==> Reading(all, v, v, packets + more, left, left)
  {
    hide Agrees;
    assert all[..u] + all[u..v] == all[..v];
    AgreesNext(all[..u], packets, rest, all[u..v], code, more, left);
  }

  lemma ReadEnds(start: seq<Byte>, input: seq<Byte>, taken: nat, packets: seq<Packet>, code: int, rest: seq<Byte>)
    requires taken <= |input| && |rest| <= BUFFER && Agrees((start + input)[..|start| + taken], packets, code, rest)
    requires code == 0 ==> taken == |input| || |rest| == BUFFER
    ensures Agrees(start + input[..taken], packets, code, rest)
    ensures code == 0 ==> taken == |input| || Jammed(rest)
    ensures packets == Decode(start + input).packets && code == Decode(start + input).code
    ensures code == 0 ==> rest == Held(Decode(start + input).rest)
  {
    hide Decode, Agrees, Jammed, Held;
    assert (start + input)[..|start| + taken] == start + input[..taken];
    if code == 0 { RestJammed(start + input[..taken], packets, rest); }
    TookAll(start, input, taken, packets, code, rest);
  }

  function Min(a: nat, b: nat): nat { if a < b then a else b }

  /** How many of `total` bytes have arrived after the first `k` offers. */
  function Arrived(total: nat, offers: seq<nat>, k: nat): (n: nat)
    requires k <= |offers|
    ensures n <= total
  {
    if k == 0 then 0 else Min(total, Arrived(total, offers, k - 1) + offers[k - 1])
  }

  lemma {:induction false} ArrivedGrows(total: nat, offers: seq<nat>, j: nat, k: nat)
    requires j <= k <= |offers|
    ensures Arrived(total, offers, j) <= Arrived(total, offers, k)
    decreases k
  {
    if j < k { ArrivedGrows(total, offers, j, k - 1); }
  }

  /** The bytes behind what was taken, with what the next offer brings. */
  lemma MoreWaits(s: seq<Byte>, taken: nat, taken': nat, end: nat, packets: seq<Packet>, rest: seq<Byte>,
                  code: int, more: seq<Packet>, left: seq<Byte>)
    requires taken <= taken' <= end <= |s|
    requires Agrees(s[..taken], packets, 0, rest)
    requires Agrees(rest + s[taken..end][..taken' - taken], more, code, left)
    ensures Agrees(s[..taken'], packets + more, code, left)
  {
    hide Agrees;
    assert s[taken..end][..taken' - taken] == s[taken..taken'];
    assert s[..taken] + s[taken..taken'] == s[..taken'];
    AgreesNext(s[..taken], packets, rest, s[taken..taken'], code, more, left);
  }

  lemma ServeEnds(stream: seq<Byte>, end: nat, taken: nat, packets: seq<Packet>, code: int, rest: seq<Byte>)
    requires taken <= end <= |stream| && |rest| <= BUFFER && Agrees(stream[..taken], packets, code, rest)
    requires code == 0 ==> taken == end || Jammed(rest)
    ensures packets == Decode(stream[..end]).packets && code == Decode(stream[..end]).code
    ensures code == 0 ==> rest == Held(Decode(stream[..end]).rest)
  {
    hide Decode, Agrees, Jammed, Held;
    assert [] + stream[..end][..taken] == stream[..taken] && [] + stream[..end] == stream[..end];
    TookAll([], stream[..end], taken, packets, code, rest);
  }

  /** The buffer tells whether the connection has stalled. */
  lemma HeldStalled(s: seq<Byte>, contents: seq<Byte>)
    requires Decode(s).code == 0 && contents == Held(Decode(s).rest)
    ensures Stalled(s) <==> Doomed(contents)
  {
    hide Decode, Stalled, UnpackInt;
    StalledIffDoomed(s);
    var rest := Decode(s).rest;
    assert |rest| >= 2 ==> contents[..2] == rest[..2];
  }

  /** A whole connection: each element of `offers` says how many further bytes of the stream
      arrive before the next read event. Whatever the cuts, the packets and the code are those
      of decoding everything that arrived in one go, the buffer holds the bytes left, and they
      tell whether anything can still be decoded. */
  method Serve(stream: seq<Byte>, offers: seq<nat>, client: nat, fd: int)
    returns (ctx: ClientContextBuffer, packets: seq<Packet>, code: int)
    ensures ctx.Valid()
    ensures var d := Decode(stream[..Arrived(|stream|, offers, |offers|)]);
      packets == d.packets && code == d.code && (code == 0 ==> ctx.Contents() == Held(d.rest))
    ensures code == 0 ==> (Stalled(stream[..Arrived(|stream|, offers, |offers|)]) <==> Doomed(ctx.Contents()))
  {
    hide Decode, Agrees, Jammed, Held, Stalled, Doomed;
    AgreesNone(stream);
    ctx := new ClientContextBuffer(client, fd);
    packets, code := [], 0;
    ghost var end := Arrived(|stream|, offers, |offers|);
    var arrived: nat, taken: nat := 0, 0;
    for i := 0 to |offers|
      invariant fresh(ctx) && fresh(ctx.buffer) && ctx.Valid() && code == 0
      invariant arrived == Arrived(|stream|, offers, i) && taken <= arrived
      invariant taken == arrived || Jammed(ctx.Contents())
      invariant Agrees(stream[..taken], packets, 0, ctx.Contents())
    {
      arrived := Min(|stream|, arrived + offers[i]);
      ghost var rest := ctx.Contents();
      var more, n;
      code, more, n := ctx.OnBufferEventRead(stream[taken..arrived]);
      MoreWaits(stream, taken, taken + n, arrived, packets, rest, code, more, ctx.Contents());
      packets, taken := packets + more, taken + n;
      if code != 0 {
        ArrivedGrows(|stream|, offers, i + 1, |offers|);
        break;
      }
    }
    ServeEnds(stream, end, taken, packets, code, ctx.Contents());
    if code == 0 { HeldStalled(stream[..end], ctx.Contents()); }
  }
}
