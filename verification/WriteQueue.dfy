/** A TCP socket as the object the code updates: its methods do what the functions on socket
    values say, and the code's assertions hold. */
module WriteQueue {
  import opened WriteLists
  import opened WriteRuns

  datatype HeadOutcome = HeadDone | HeadStays | HeadFailed

  class Socket {
    var kind: Kind
    var high: WbList
    var low: WbList
    var wbSize: int
    var nextId: nat
    /** What the following write() calls will do. */
    var script: seq<Io>
    // History: no operation decides anything by it.
    ghost var sent: seq<Package>
    ghost var wire: seq<Byte>
    ghost var begun: seq<Begun>
    ghost var line: seq<Package>
    var subHigh: seq<Package>
    ghost var subLow: seq<Package>
    var steps: nat

    ghost function Out(): Flow
      reads this
    {
      Flow(sent, wire, wbSize, begun)
    }

    ghost function Value(): Sock
      reads this
    {
      Sock(kind, high, low, Out(), nextId, line, subHigh, subLow, steps)
    }

    constructor (kind: Kind)
      ensures Value() == Start(kind)
    {
      this.kind, script := kind, [];
      high, low, wbSize, nextId := EMPTY, EMPTY, 0, 0;
      sent, wire, begun, line, subHigh, subLow, steps := [], [], [], [], [], [], 0;
    }

    /** One call of write(); with nothing more prescribed it would block. */
    method Write() returns (io: Io)
      modifies this`script
      ensures io == FirstIo(old(script)) && script == if old(script) == [] then [] else old(script)[1..]
    {
      if script == [] { return Eagain; }
      io := script[0];
      script := script[1..];
    }

    /** write() again as long as it is interrupted. */
    method WriteRetry() returns (io: Io)
      modifies this`script
      ensures (io, script) == Retry(old(script))
    {
      io := Write();
      while io == Eintr
        invariant if io == Eintr then Retry(script) == Retry(old(script)) else (io, script) == Retry(old(script))
        decreases |script| + if io == Eintr then 1 else 0
      {
        io := Write();
      }
    }

    /** The inner loop of send_list_tcp: the head is written until write() is not interrupted. */
    method SendHead(l: WbList, ghost other: nat) returns (r: WbList, o: HeadOutcome)
      requires l.items != [] && InRange(l.items)
      modifies this`script, this`wbSize, this`wire, this`sent, this`begun
      ensures r.tail == l.tail && InRange(r.items)
      ensures var d := SendListF(old(Out()), l.items, old(script), steps, |subHigh|, other);
              match o
              case HeadDone => r.items == l.items[1..] && SendListF(Out(), r.items, script, steps, |subHigh|, other) == d
              case HeadStays => r.items != [] && d == Drain(Out(), r.items, script, true)
              case HeadFailed => d == Drain(Out(), r.items, script, false)
    {
      hide Waiting, SendListF, Retry;
      HeadMeans(Out(), l.items, script, steps, |subHigh|, other);
      r := l;
      var b := l.items[0];
      var size := |b.pkg.data| - b.off;
      var io := WriteRetry();
      if io == Failed { return r, HeadFailed; }
      if !io.Wrote? { return r, HeadStays; }
      var n := Took(io, size);
      if b.off == 0 && n > 0 {
        begun := begun + [Begun(b.pkg, b.jumped, Waiting(l.items[1..]) + other, b.at, b.seen, steps, |subHigh|)];
      }
      wire := wire + b.pkg.data[b.off..b.off + n];
      wbSize := wbSize - n;
      if n != size {
        return l.(items := [b.(off := b.off + n)] + l.items[1..]), HeadStays;
      }
      sent := sent + [b.pkg];
      return l.(items := l.items[1..]), HeadDone;
    }

    /** send_list_tcp on list `l`; `ok` is false when write() failed for good. */
    method SendList(l: WbList, ghost other: nat) returns (r: WbList, ok: bool)
      requires InRange(l.items)
      modifies this`script, this`wbSize, this`wire, this`sent, this`begun
      ensures SendListF(old(Out()), l.items, old(script), steps, |subHigh|, other) == Drain(Out(), r.items, script, ok)
      ensures ok ==> r == Rest(l, r.items)
    {
      hide SendListF;
      SendNothing(Out(), script, steps, |subHigh|, other);
      r, ok := l, true;
      ghost var d := SendListF(Out(), l.items, script, steps, |subHigh|, other);
      while r.items != []
        invariant ok && InRange(r.items) && r.tail == l.tail
        invariant SendListF(Out(), r.items, script, steps, |subHigh|, other) == d
        decreases |r.items|
      {
        var o;
        r, o := SendHead(r, other);
        if o == HeadStays { return; }
        if o == HeadFailed { return r, false; }
      }
      SendNothing(Out(), script, steps, |subHigh|, other);
      r := r.(tail := -1);
    }

    /** force_close: both lists are freed. */
    method ForceClose()
      modifies this`kind, this`high, this`low
      ensures Value() == Closed(old(Value()))
    {
      high, low := EMPTY, EMPTY;
      kind := Invalid;
    }

    /** raise_uncomplete: the begun head of the low list goes to the empty high list. */
    method RaiseUncomplete()
      requires high == EMPTY && Uncomplete(low)
      modifies this`high, this`low
      ensures Value() == Raised(old(Value()))
    {
      var b := low.items[0];
      low := WbList(low.items[1..], if |low.items| == 1 then -1 else low.tail);
      high := WbList([b], b.id);
    }

    /** Steps 2 and 3 of send_buffer; `ok` is false after an I/O error. */
    method SendLow() returns (ok: bool)
      requires high == EMPTY && InRange(low.items)
      modifies this`high, this`low, this`script, this`wbSize, this`wire, this`sent, this`begun
      ensures var e := Emptying(old(Value()), old(low), old(high), old(script));
        ok == e.ok && Value() == if ok then LowSent(old(Value()), e) else old(Value()).(flow := e.flow)
    {
      hide SendListF;
      var r;
      r, ok := SendList(low, Waiting(high.items));
      if !ok { return; }
      low := r;
      if Uncomplete(low) { RaiseUncomplete(); }
    }

    /** send_buffer, when the socket is writable.  `failed` tells an I/O error from a close that
        was waiting for the lists to drain. */
    method SendBuffer() returns (st: Status, ghost failed: bool)
      requires kind != Invalid && Inv(Value()) && InRange(high.items) && InRange(low.items)
      modifies this`kind, this`high, this`low, this`script, this`wbSize, this`wire, this`sent, this`begun
      ensures Result(Value(), st, failed) == BufferStep(old(Value()), old(script))
    {
      hide SendListF, Inv, Raised;
      InvInRange(Value());
      assert !Uncomplete(low);
      var r, ok := SendList(high, Waiting(low.items));
      if !ok {
        ForceClose();
        return ReportClose, true;
      }
      high := r;
      if high.items == [] {
        if low.items != [] {
          ok := SendLow();
          if !ok {
            ForceClose();
            return ReportClose, true;
          }
        } else if kind == HalfClose {
          ForceClose();
          return ReportClose, false;
        }
      }
      return Nothing, false;
    }

    /** append_sendbuffer_: the assertions on the tail pointer hold. */
    method Append(l: WbList, b: Buffer) returns (r: WbList)
      requires ExactTail(l) && b.id == nextId
      modifies this`nextId
      ensures nextId == old(nextId) + 1 && ExactTail(r) && r == WbList(l.items + [b], b.id)
    {
      if l.items != [] {
        assert l.tail != -1 && l.items[|l.items| - 1].id == l.tail;
      }
      r := WbList(l.items + [b], b.id);
      nextId := nextId + 1;
    }

    ghost method Note(t: Sock)
      modifies this`sent, this`wire, this`begun, this`line, this`subLow
      ensures sent == t.flow.sent && wire == t.flow.wire && begun == t.flow.begun && line == t.line && subLow == t.subLow
    {
      sent, wire, begun, line, subLow := t.flow.sent, t.flow.wire, t.flow.begun, t.line, t.subLow;
    }

    /** send_socket on an empty, connected socket: n bytes were written at once, the rest heads
        the high list. */
    method QueueRest(pkg: Package, n: nat)
      requires Inv(Value()) && Empty(Value()) && n <= |pkg.data|
      modifies this
      ensures Value() == DirectState(old(Value()), pkg, n) && script == old(script)
    {
      hide Inv;
      ghost var t := DirectState(Value(), pkg, n);
      EmptyLists(Value());
      if n != |pkg.data| {
        high := Append(high, Buffer(nextId, pkg, n, pkg.prio == Low && n == 0, steps, |subHigh|));
        wbSize := wbSize + (|pkg.data| - n);
      }
      if pkg.prio == High { subHigh := subHigh + [pkg]; }
      Note(t);
    }

    /** send_socket on a socket with queued packages, or not yet connected. */
    method Queue(pkg: Package)
      requires ExactTail(high) && ExactTail(low)
      modifies this
      ensures Value() == QueuedState(old(Value()), pkg) && script == old(script)
    {
      hide Packages;
      ghost var t := QueuedState(Value(), pkg);
      var b := Buffer(nextId, pkg, 0, false, steps, |subHigh|);
      if pkg.prio == Low {
        low := Append(low, b);
      } else {
        high := Append(high, b);
        subHigh := subHigh + [pkg];
      }
      wbSize := wbSize + |pkg.data|;
      Note(t);
    }

    /** send_socket for a package of either priority. */
    method SendSocket(pkg: Package) returns (st: Status, ghost failed: bool)
      requires Good(Value())
      modifies this
      ensures Result(Value(), st, failed) == SendStep(old(Value()), pkg, FirstIo(old(script)))
    {
      hide Inv, Orderly, DirectState, QueuedState;
      if kind == Invalid || kind == HalfClose { return Nothing, false; }
      if high.items == [] && low.items == [] && kind == Connected {
        var io := Write();
        if io == Failed {
          ForceClose();
          return ReportClose, true;
        }
        QueueRest(pkg, Took(io, |pkg.data|));
        return Nothing, false;
      }
      TailsExact(Value());
      Queue(pkg);
      return Nothing, false;
    }

    /** close_socket. */
    method CloseSocket() returns (st: Status, ghost failed: bool)
      requires Good(Value()) && InRange(high.items) && InRange(low.items)
      modifies this
      ensures Result(Value(), st, failed) == CloseStep(old(Value()), old(script))
    {
      hide Inv, Orderly, BufferStep;
      if kind == Invalid { return ReportClose, false; }
      if high.items != [] || low.items != [] {
        st, failed := SendBuffer();
        if st != Nothing { return; }
      }
      if high.items == [] && low.items == [] {
        ForceClose();
        return ReportClose, false;
      }
      kind := HalfClose;
      return Nothing, false;
    }

    /** One operation of a run. */
    method Perform(op: Op)
      requires Good(Value()) && InRange(high.items) && InRange(low.items)
      modifies this
      ensures Value() == Step(old(Value()), op)
    {
      hide Inv, Orderly, SendStep, BufferStep, CloseStep;
      var n := steps;
      var st; ghost var failed;
      match op {
        case Submission(pkg, io) =>
          script := [io];
          st, failed := SendSocket(pkg);
        case Writable(s) =>
          script := s;
          if kind == Connected || kind == HalfClose { st, failed := SendBuffer(); }
        case CloseRequest(s) =>
          script := s;
          st, failed := CloseSocket();
        case ConnectDone(ok) =>
          if kind == Connecting {
            if ok { kind := Connected; } else { ForceClose(); }
          }
        case PeerClosed =>
          if kind != Invalid { ForceClose(); }
      }
      steps := n + 1;
    }
  }

  lemma TailsExact(s: Sock)
    requires Good(s) && s.kind != Invalid
    ensures ExactTail(s.high) && ExactTail(s.low)
  { }

  /** Any run of a socket object is a run of the value, so all that is proved of runs holds. */
  method RunSocket(start: Kind, ops: seq<Op>) returns (s: Socket)
    requires start == Connecting || start == Connected
    ensures s.Value() == After(start, ops)
  {
    hide Good, Step;
    s := new Socket(start);
    for i := 0 to |ops|
      invariant fresh(s) && s.Value() == After(start, ops[..i])
    {
      AfterNext(start, ops, i);
      s.Perform(ops[i]);
    }
    assert ops[..|ops|] == ops;
  }

  /** What the next write() does. */
  function FirstIo(script: seq<Io>): Io { if script == [] then Eagain else script[0] }

  lemma SendNothing(f: Flow, script: seq<Io>, when: nat, high: nat, other: nat)
    ensures SendListF(f, [], script, when, high, other) == Drain(f, [], script, true)
  { }
}
