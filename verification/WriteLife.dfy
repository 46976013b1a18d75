/** How far the writes of a socket get and when it closes, told by what write() does, what is on
    the wire, and what was asked for: the progress side of WriteRuns. */
module WriteLife {
  import opened WriteLists
  import opened WriteRuns

  // ---- how far a list drains ------------------------------------------------------------------

  /** write() is called again exactly while it is interrupted; past the script it would block. */
  lemma {:induction false} RetryMeans(script: seq<Io>) returns (k: nat)
    ensures k <= |script| && (forall i :: 0 <= i < k ==> script[i] == Eintr)
    ensures if k < |script| then script[k] != Eintr && Retry(script) == (script[k], script[k + 1..]) else Retry(script) == (Eagain, [])
  {
    if script == [] || script[0] != Eintr {
      k := 0;
    } else {
      k := RetryMeans(script[1..]);
      k := k + 1;
    }
  }

  /** How many buffers of a list write() takes whole, one call each, interruptions aside. */
  function Whole(script: seq<Io>, bs: seq<Buffer>): (m: nat)
    ensures m <= |bs|
    decreases |bs|
  {
    if bs == [] then 0
    else
      var (io, rest) := Retry(script);
      if io.Wrote? && io.n >= |bs[0].pkg.data| - bs[0].off then 1 + Whole(rest, bs[1..]) else 0
  }

  /** What write() does after m calls. */
  function Beyond(script: seq<Io>, m: nat): seq<Io>
    decreases m
  {
    if m == 0 then script else Beyond(Retry(script).1, m - 1)
  }

  /** What the call for the first buffer not taken whole does. */
  function Last(script: seq<Io>, bs: seq<Buffer>): Io { Retry(Beyond(script, Whole(script, bs))).0 }

  /** That buffer has so many of its bytes on the wire afterwards. */
  function Reached(script: seq<Io>, bs: seq<Buffer>): nat
    requires Whole(script, bs) < |bs|
  {
    bs[Whole(script, bs)].off + if Last(script, bs).Wrote? then Last(script, bs).n else 0
  }

  lemma {:induction false} WholeNext(script: seq<Io>, bs: seq<Buffer>)
    requires InRange(bs) && Whole(script, bs) < |bs|
    ensures Reached(script, bs) <= |bs[Whole(script, bs)].pkg.data|
    ensures !(Last(script, bs).Wrote? && Last(script, bs).n >= |bs[Whole(script, bs)].pkg.data| - bs[Whole(script, bs)].off)
    decreases |bs|
  {
    if Whole(script, bs) > 0 { WholeNext(Retry(script).1, bs[1..]); }
  }

  /** Draining a list takes exactly those buffers, and of the next one what the last call took. */
  lemma {:induction false} DrainsExact(f: Flow, bs: seq<Buffer>, script: seq<Io>, when: nat, high: nat, other: nat)
    requires InRange(bs)
    ensures var d, m := SendListF(f, bs, script, when, high, other), Whole(script, bs);
      && d.flow.sent == f.sent + Packages(bs[..m])
      && (m == |bs| ==> d.ok && d.items == [] && d.script == Beyond(script, m))
      && (m < |bs| ==> (d.ok <==> Last(script, bs) != Failed) && d.items == [bs[m].(off := Reached(script, bs))] + bs[m + 1..])
    decreases |bs|
  {
    hide Waiting, Packages, SendListF, Written, Retry;
    var m := Whole(script, bs);
    if bs == [] {
      DrainNothing(f, script, when, high, other);
      NoPackages(f.sent, bs[..0]);
    } else {
      HeadMeans(f, bs, script, when, high, other);
      if m == 0 {
        WrittenSent(f, bs[0], Took(Retry(script).0, |bs[0].pkg.data| - bs[0].off), Waiting(bs[1..]) + other, when, high);
        NoPackages(f.sent, bs[..0]);
      } else {
        var b, rest := bs[0], Retry(script).1;
        var g := Written(f, b, |b.pkg.data| - b.off, Waiting(bs[1..]) + other, when, high);
        WrittenSent(f, b, |b.pkg.data| - b.off, Waiting(bs[1..]) + other, when, high);
        DrainsExact(g.(sent := g.sent + [b.pkg]), bs[1..], rest, when, high, other);
        PackagesHead(f.sent, bs[..m]);
        assert bs[..m][1..] == bs[1..][..m - 1];
        if m < |bs| { assert bs[1..][m - 1] == bs[m] && bs[1..][m..] == bs[m + 1..]; }
      }
    }
  }

  lemma WrittenSent(f: Flow, b: Buffer, n: nat, waiting: nat, when: nat, high: nat)
    requires b.off + n <= |b.pkg.data|
    ensures Written(f, b, n, waiting, when, high).sent == f.sent
  { }

  lemma NoPackages(sent: seq<Package>, bs: seq<Buffer>)
    requires bs == []
    ensures sent + Packages(bs) == sent
  { }

  lemma PackagesHead(sent: seq<Package>, bs: seq<Buffer>)
    requires bs != []
    ensures sent + [bs[0].pkg] + Packages(bs[1..]) == sent + Packages(bs)
  { }

  lemma {:induction false} WholeJoin(script: seq<Io>, a: seq<Buffer>, b: seq<Buffer>)
    ensures Whole(script, a) < |a| ==> Whole(script, a + b) == Whole(script, a)
    ensures Whole(script, a) == |a| ==> Whole(script, a + b) == |a| + Whole(Beyond(script, |a|), b)
    decreases |a|
  {
    if a == [] {
      assert a + b == b;
    } else {
      assert (a + b)[0] == a[0] && (a + b)[1..] == a[1..] + b;
      WholeJoin(Retry(script).1, a[1..], b);
    }
  }

  lemma {:induction false} BeyondTwice(script: seq<Io>, a: nat, b: nat)
    ensures Beyond(Beyond(script, a), b) == Beyond(script, a + b)
    decreases a
  {
    if a > 0 { BeyondTwice(Retry(script).1, a - 1, b); }
  }

  lemma {:induction false} RetryFrom(script: seq<Io>)
    ensures Retry(script).0 == Failed ==> Failed in script
    ensures Failed in Retry(script).1 ==> Failed in script
  {
    if script != [] { RetryFrom(script[1..]); }
  }

  /** Draining fails only by an error of write(), and then something is left. */
  lemma {:induction false} FailsHonestly(f: Flow, bs: seq<Buffer>, script: seq<Io>, when: nat, high: nat, other: nat)
    requires InRange(bs)
    ensures var d := SendListF(f, bs, script, when, high, other);
      && (!d.ok ==> Failed in script && d.items != [])
      && (Failed in d.script ==> Failed in script)
    decreases |bs|
  {
    hide Waiting;
    RetryFrom(script);
    if bs != [] && Retry(script).0.Wrote? {
      var b, io, rest := bs[0], Retry(script).0, Retry(script).1;
      var n := Took(io, |b.pkg.data| - b.off);
      if n == |b.pkg.data| - b.off {
        var g := Written(f, b, n, Waiting(bs[1..]) + other, when, high);
        FailsHonestly(g.(sent := g.sent + [b.pkg]), bs[1..], rest, when, high, other);
      }
    }
  }

  // ---- send_buffer -----------------------------------------------------------------------------

  /** Something left in a list is something of the line not sent. */
  lemma LeftUnsent(s: Sock)
    requires Inv(s)
    ensures s.flow.sent == s.line <==> Empty(s)
  {
    hide Flatten, Of, Unsent, Started, HeadOnly, Fair, LowList, HighList;
    assert |Line(s)| == |s.flow.sent| + |s.high.items| + |s.low.items|;
    if Empty(s) { AllSent(s); }
  }

  predicate CanWrite(k: Kind) { k == Connected || k == HalfClose || k == Connecting }

  /** send_buffer reports a close exactly by closing. Without an error that is exactly when the
      socket was half-closed, its low list empty, and now all is sent; an error is one of write(),
      and leaves something unsent. */
  lemma BufferEnds(s: Sock, script: seq<Io>)
    requires Inv(s) && CanWrite(s.kind) && InRange(s.high.items) && InRange(s.low.items)
    ensures var r := BufferStep(s, script);
      && (r.status == ReportClose <==> r.sock.kind == Invalid) && (r.status == Nothing ==> r.sock.kind == s.kind)
      && (r.failed ==> r.status == ReportClose && Failed in script && r.sock.flow.sent != s.line)
      && (r.status == ReportClose && !r.failed <==> s.kind == HalfClose && s.low.items == [] && r.sock.flow.sent == s.line)
  {
    hide Inv, Orderly, Drained, Fair, ExactTail, HighList, LowList, JumpedHead, NoneStarted, SendListF, Flatten, Raised;
    HighFacts(s, script);
    var d := Emptying(s, s.high, s.low, script);
    FailsHonestly(s.flow, s.high.items, script, s.steps, |s.subHigh|, Waiting(s.low.items));
    if d.items != [] { ShortOfLine(s, d); }
    if d.ok && d.items == [] {
      HighDrained(s, d);
      var t := HighSent(s, d);
      LeftUnsent(t);
      if t.low.items != [] {
        var e := Emptying(t, t.low, t.high, d.script);
        FailsHonestly(t.flow, t.low.items, d.script, t.steps, |t.subHigh|, Waiting(t.high.items));
        LowFacts(t, d.script);
        if e.items != [] { ShortOfLineLow(t, e); }
        RaisedRest(t.(flow := e.flow, low := Rest(t.low, e.items)));
      }
    }
  }

  lemma ShortOfLine(s: Sock, d: Drain)
    requires Inv(s) && Drained(s.flow, s.high.items, d.flow, d.items) && d.items != []
    ensures d.flow.sent != s.line
  {
    hide Flatten, Of, Unsent, Started, HeadOnly, Fair, LowList, HighList, Shorter, Packages;
    assert |d.flow.sent + Packages(d.items)| == |s.flow.sent + Packages(s.high.items)| <= |Line(s)|;
  }

  lemma ShortOfLineLow(s: Sock, d: Drain)
    requires Inv(s) && s.high.items == [] && Drained(s.flow, s.low.items, d.flow, d.items) && d.items != []
    ensures d.flow.sent != s.line
  {
    hide Flatten, Of, Unsent, Started, HeadOnly, Fair, LowList, HighList, Shorter, Packages;
    assert |d.flow.sent + Packages(d.items)| == |s.flow.sent + Packages(s.low.items)| <= |Line(s)|;
  }

  /** The buffers of both lists, in the order they are written. */
  function Queue(s: Sock): seq<Buffer> { s.high.items + s.low.items }

  /** What the calls of write() leave on the wire. */
  predicate Pumped(s: Sock, script: seq<Io>, g: Flow)
    requires InRange(s.high.items) && InRange(s.low.items)
  {
    var bs := Queue(s);
    var m := Whole(script, bs);
    && g.sent == s.flow.sent + Packages(bs[..m])
    && g.wire == Flatten(g.sent) + if m == |bs| then [] else WholeNext(script, bs); bs[m].pkg.data[..Reached(script, bs)]
  }

  lemma HighPart(s: Sock, script: seq<Io>)
    requires Inv(s) && InRange(s.high.items) && InRange(s.low.items) && Whole(script, s.high.items) < |s.high.items|
    ensures var d := Emptying(s, s.high, s.low, script);
      Pumped(s, script, d.flow) && d.items != [] && (d.ok <==> Last(script, Queue(s)) != Failed)
    ensures Whole(script, Queue(s)) < |Queue(s)|
  {
    hide Inv, Drained, Fair, SendListF, Flatten, Packages, HighList, JumpedHead, ExactTail;
    var h := s.high.items;
    var m := Whole(script, h);
    HighFacts(s, script);
    DrainsExact(s.flow, h, script, s.steps, |s.subHigh|, Waiting(s.low.items));
    WholeJoin(script, h, s.low.items);
    WholeNext(script, h);
    var d := Emptying(s, s.high, s.low, script);
    DrainedWire(s.flow, h, d.flow, d.items);
    assert Queue(s)[..m] == h[..m] && Queue(s)[m] == h[m];
  }

  lemma DrainedWire(f: Flow, a: seq<Buffer>, g: Flow, b: seq<Buffer>)
    requires Drained(f, a, g, b)
    ensures g.wire == Flatten(g.sent) + if b == [] then [] else b[0].pkg.data[..if b[0].off <= |b[0].pkg.data| then b[0].off else 0]
  {
    hide Flatten, Packages, Unsent, Shorter;
  }

  lemma LowPart(s: Sock, script: seq<Io>)
    requires Inv(s) && InRange(s.high.items) && InRange(s.low.items) && Whole(script, s.high.items) == |s.high.items|
    ensures var d := Emptying(s, s.high, s.low, script); var t := HighSent(s, d); var e := Emptying(t, t.low, t.high, d.script);
      && d.ok && d.items == [] && Pumped(s, script, e.flow)
      && (e.ok <==> Whole(script, Queue(s)) == |Queue(s)| || Last(script, Queue(s)) != Failed)
      && (s.low.items == [] ==> e.flow == d.flow)
  {
    hide Inv, Drained, Fair, SendListF, Flatten, Packages, HighList, JumpedHead, ExactTail, LowList, NoneStarted, Whole, Retry, Beyond, Waiting;
    var h, l := s.high.items, s.low.items;
    HighFacts(s, script);
    DrainsExact(s.flow, h, script, s.steps, |s.subHigh|, Waiting(l));
    var d := Emptying(s, s.high, s.low, script);
    HighDrained(s, d);
    var t := HighSent(s, d);
    LowFacts(t, d.script);
    DrainsExact(t.flow, l, d.script, t.steps, |t.subHigh|, Waiting(t.high.items));
    var e := Emptying(t, t.low, t.high, d.script);
    DrainedWire(t.flow, l, e.flow, e.items);
    WholeJoin(script, h, l);
    var k := Whole(d.script, l);
    BeyondTwice(script, |h|, k);
    if k < |l| { WholeNext(d.script, l); }
    assert h[..|h|] == h && Queue(s)[..|h| + k] == h + l[..k];
    PackagesJoin(s.flow.sent, h, l[..k]);
    DrainNothing(t.flow, d.script, t.steps, |t.subHigh|, Waiting(t.high.items));
  }

  lemma PackagesJoin(sent: seq<Package>, a: seq<Buffer>, b: seq<Buffer>)
    ensures sent + Packages(a) + Packages(b) == sent + Packages(a + b)
  { }

  lemma DrainNothing(f: Flow, script: seq<Io>, when: nat, high: nat, other: nat)
    ensures SendListF(f, [], script, when, high, other) == Drain(f, [], script, true)
  { }

  /** send_buffer: exactly the buffers that write() takes whole are finished, the next one is as far
      as its call took it, and the socket closes with an error exactly if that call failed. */
  lemma BufferExact(s: Sock, script: seq<Io>)
    requires Inv(s) && CanWrite(s.kind) && InRange(s.high.items) && InRange(s.low.items)
    ensures var r, bs := BufferStep(s, script), Queue(s);
      && Pumped(s, script, r.sock.flow)
      && (r.failed <==> Whole(script, bs) < |bs| && Last(script, bs) == Failed)
  {
    hide Inv, Drained, Fair, SendListF, Flatten, Packages, Pumped, Whole, Last, Raised;
    if Whole(script, s.high.items) < |s.high.items| {
      HighPart(s, script);
    } else {
      LowPart(s, script);
      var d := Emptying(s, s.high, s.low, script);
      var t := HighSent(s, d);
      var e := Emptying(t, t.low, t.high, d.script);
      RaisedRest(t.(flow := e.flow, low := Rest(t.low, e.items)));
      if s.low.items == [] {
        DrainNothing(t.flow, d.script, t.steps, |t.subHigh|, Waiting(t.high.items));
        NoneLeft(script, s.high.items);
      }
    }
  }

  lemma NoneLeft(script: seq<Io>, h: seq<Buffer>)
    requires Whole(script, h) == |h|
    ensures Whole(script, h + []) == |h + []|
  {
    assert h + [] == h;
  }

  /** close_socket on a live socket closes it cleanly exactly if all is sent by then; otherwise by
      an error of write(), or it half-closes it. */
  lemma CloseOutcome(s: Sock, script: seq<Io>)
    requires Inv(s) && CanWrite(s.kind) && InRange(s.high.items) && InRange(s.low.items)
    ensures var r := CloseStep(s, script);
      && (r.status == ReportClose && !r.failed <==> r.sock.flow.sent == s.line)
      && (r.failed ==> Failed in script && r.status == ReportClose)
      && r.sock.kind == if r.status == ReportClose then Invalid else HalfClose
  {
    hide Inv, BufferStep;
    LeftUnsent(s);
    if !Empty(s) {
      BufferEnds(s, script);
      BufferKeeps(s, script);
      var r := BufferStep(s, script);
      if r.status == Nothing { LeftUnsent(r.sock); }
    }
  }

  // ---- runs -------------------------------------------------------------------------------------

  /** When an operation on a live socket reports a close, and what kind of socket it leaves. */
  lemma KindAfter(start: Kind, ops: seq<Op>, i: nat)
    requires (start == Connecting || start == Connected) && i < |ops| && After(start, ops[..i]).kind != Invalid
    ensures var s, t, r := After(start, ops[..i]), After(start, ops[..i + 1]), Outcome(After(start, ops[..i]), ops[i]);
      && (r.status == ReportClose <==> t.kind == Invalid) && (r.failed ==> t.kind == Invalid)
      && (match ops[i]
          case Submission(_, io) => r.failed <==> io == Failed && s.kind == Connected && s.flow.sent == s.line
          case ConnectDone(ok) => r.failed <==> s.kind == Connecting && !ok
          case PeerClosed => r.failed
          case Writable(script) => r.failed ==> Failed in script && s.kind != Connecting
          case CloseRequest(script) => r.failed ==> Failed in script)
      && (t.kind != Invalid ==> t.kind == match ops[i]
          case CloseRequest(_) => HalfClose
          case ConnectDone(_) => if s.kind == Connecting then Connected else s.kind
          case _ => s.kind)
  {
    hide After, BufferStep, CloseStep, Inv, Orderly, DirectState, QueuedState;
    AfterNext(start, ops, i);
    var s := After(start, ops[..i]);
    LeftUnsent(s);
    match ops[i]
    case Writable(script) => if s.kind != Connecting { BufferEnds(s, script); }
    case CloseRequest(script) => CloseOutcome(s, script);
    case Submission(pkg, io) => SendKind(s, pkg, io);
    case _ =>
  }

  /** On a closed socket nothing happens any more; only a request to close it is answered, each time. */
  lemma AfterClose(s: Sock, op: Op)
    requires Good(s) && s.kind == Invalid && InRange(s.high.items) && InRange(s.low.items)
    ensures Step(s, op) == s.(steps := s.steps + 1) && !Outcome(s, op).failed
    ensures Outcome(s, op).status == if op.CloseRequest? then ReportClose else Nothing
  { }

  lemma SendKind(s: Sock, pkg: Package, io: Io)
    requires s.kind != Invalid
    ensures var r := SendStep(s, pkg, io);
      && (r.failed <==> r.status == ReportClose) && (r.failed <==> Empty(s) && s.kind == Connected && io == Failed)
      && r.sock.kind == if r.failed then Invalid else s.kind
  { }

  /** A clean close, told by the wire. A close request closes exactly if it gets everything out. A
      writable event on a half-closed socket closes it exactly if the low list was empty before and
      everything is out now. Nothing else closes cleanly. */
  lemma CleanCloseIff(start: Kind, ops: seq<Op>, i: nat)
    requires (start == Connecting || start == Connected) && i < |ops| && After(start, ops[..i]).kind != Invalid
    ensures var s, t := After(start, ops[..i]), After(start, ops[..i + 1]);
      CleanClose(start, ops, i) <==>
        || (ops[i].CloseRequest? && t.flow.sent == s.line)
        || (ops[i].Writable? && s.kind == HalfClose && s.low.items == [] && t.flow.sent == s.line)
    ensures CleanClose(start, ops, i) ==> After(start, ops[..i + 1]).flow.wire == Flatten(After(start, ops[..i]).line)
  {
    hide After, BufferStep, CloseStep, Inv, Orderly, DirectState, QueuedState, Flatten, Of;
    AfterNext(start, ops, i);
    var s := After(start, ops[..i]);
    LeftUnsent(s);
    if CleanClose(start, ops, i) { CleanOutcome(s, ops[i]); }
    match ops[i]
    case Writable(script) => if s.kind != Connecting { BufferEnds(s, script); }
    case CloseRequest(script) => CloseOutcome(s, script);
    case Submission(pkg, io) => SendKind(s, pkg, io);
    case _ =>
  }

  /** Once everything is out, the next writable event closes a half-closed socket. */
  lemma OneMoreCloses(start: Kind, ops: seq<Op>, i: nat)
    requires (start == Connecting || start == Connected) && i < |ops| && ops[i].Writable?
    requires var s := After(start, ops[..i]); s.kind == HalfClose && s.flow.sent == s.line
    ensures CleanClose(start, ops, i) && After(start, ops[..i + 1]).kind == Invalid
  {
    hide After, BufferStep, Inv, Orderly, Flatten, Of;
    AfterNext(start, ops, i);
    var s := After(start, ops[..i]);
    LeftUnsent(s);
    NothingToSend(s, ops[i].script);
    BufferEnds(s, ops[i].script);
  }

  lemma NothingToSend(s: Sock, script: seq<Io>)
    requires Empty(s)
    ensures BufferStep(s, script).sock.flow.sent == s.flow.sent
  { }

  /** With no empty package in line, everything is sent exactly if its bytes are on the wire. */
  lemma OutIsSent(start: Kind, ops: seq<Op>)
    requires start == Connecting || start == Connected
    requires var s := After(start, ops); forall k :: 0 <= k < |s.line| ==> |s.line[k].data| > 0
    ensures var s := After(start, ops); s.flow.wire == Flatten(s.line) <==> s.flow.sent == s.line
  {
    hide After, Good, Of, Flatten, Framed;
    WireSafe(start, ops);
    var s := After(start, ops);
    LineBytes(s.flow.wire, s.flow.sent, s.line);
  }

  lemma {:induction false} FlattenGrows(ps: seq<Package>, k: nat)
    requires k < |ps| && forall i :: 0 <= i < |ps| ==> |ps[i].data| > 0
    ensures |Flatten(ps)| >= |Flatten(ps[..k])| + |ps[k].data|
  {
    if k < |ps| - 1 {
      FlattenGrows(ps[..|ps| - 1], k);
      assert ps[..|ps| - 1][..k] == ps[..k];
    }
  }

  lemma LineBytes(wire: seq<Byte>, sent: seq<Package>, line: seq<Package>)
    requires Framed(wire, sent, line) && forall k :: 0 <= k < |line| ==> |line[k].data| > 0
    ensures wire == Flatten(line) <==> sent == line
  {
    hide Flatten;
    if sent != line {
      FlattenGrows(line, |sent|);
      assert line[..|sent|] == sent;
    }
  }

  /** A writable event, and a close request, get exactly as far as write() lets them, and close the
      socket with an error exactly if the call that stopped them failed. */
  lemma FlowsExactly(start: Kind, ops: seq<Op>, i: nat)
    requires (start == Connecting || start == Connected) && i < |ops| && After(start, ops[..i]).kind != Invalid
    requires ops[i].CloseRequest? || (ops[i].Writable? && After(start, ops[..i]).kind != Connecting)
    ensures var s, t, script := After(start, ops[..i]), After(start, ops[..i + 1]), ops[i].script;
      && Pumped(s, script, t.flow)
      && (Outcome(s, ops[i]).failed <==> Whole(script, Queue(s)) < |Queue(s)| && Last(script, Queue(s)) == Failed)
  {
    hide After, BufferStep, Inv, Orderly, Flatten, Of, Pumped, Last;
    AfterNext(start, ops, i);
    var s, script := After(start, ops[..i]), ops[i].script;
    if Empty(s) { PumpedNothing(s, script); }
    BufferExact(s, script);
    BufferEnds(s, script);
  }

  lemma PumpedNothing(s: Sock, script: seq<Io>)
    requires Inv(s) && Empty(s)
    ensures InRange(s.high.items) && InRange(s.low.items) && Pumped(s, script, s.flow) && Whole(script, Queue(s)) == |Queue(s)|
  {
    hide Flatten, Of;
    AllSent(s);
    NoPackages(s.flow.sent, Queue(s)[..0]);
  }

  /** A submission to a connected socket with nothing queued is written at once as far as write()
      takes it; any other leaves the wire alone. */
  lemma SubmissionWrites(start: Kind, ops: seq<Op>, i: nat)
    requires (start == Connecting || start == Connected) && i < |ops| && ops[i].Submission?
    ensures var s, t := After(start, ops[..i]), After(start, ops[..i + 1]);
      t.flow.wire == s.flow.wire + if s.kind == Connected && s.flow.sent == s.line && ops[i].io.Wrote?
                                   then ops[i].pkg.data[..if ops[i].io.n < |ops[i].pkg.data| then ops[i].io.n else |ops[i].pkg.data|]
                                   else []
  {
    hide After, Inv, Orderly, Flatten, Of, Waiting;
    AfterNext(start, ops, i);
    var s := After(start, ops[..i]);
    if s.kind != Invalid { LeftUnsent(s); }
    SendWrites(s, ops[i].pkg, ops[i].io);
  }

  lemma SendWrites(s: Sock, pkg: Package, io: Io)
    ensures var t := SendStep(s, pkg, io).sock;
      t.flow.wire == s.flow.wire + if s.kind == Connected && Empty(s) && io.Wrote?
                                   then pkg.data[..if io.n < |pkg.data| then io.n else |pkg.data|] else []
  {
    hide Waiting;
  }
}
