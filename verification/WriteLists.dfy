/** The two write lists of a TCP socket (network/socket/socket_server.c): every operation as a
    function of what write() does, and what each of them keeps.  Raw packages only. */
module WriteLists {
  import Ring

  type Byte = Ring.Byte

  datatype Priority = High | Low
  datatype Package = Package(data: seq<Byte>, prio: Priority)

  /** A queued package of which `off` bytes are written.  The rest is history: `jumped` marks
      a low-priority package put on the high list before any byte of it was written, `at` is
      the step of its submission, `seen` the number of high-priority packages before it. */
  datatype Buffer = Buffer(id: nat, pkg: Package, off: nat, jumped: bool, at: nat, seen: nat)

  /** A list with its tail pointer; `tail` names the last buffer, -1 is NULL. */
  datatype WbList = WbList(items: seq<Buffer>, tail: int)

  const EMPTY: WbList := WbList([], -1)

  /** What a write() call does; the bytes it may take are limited by the call. */
  datatype Io = Wrote(n: nat) | Eintr | Eagain | Failed

  datatype Kind = Invalid | Connecting | Connected | HalfClose

  /** The first byte of a package goes out at step `when`, while `waiting` high-priority
      packages queue; `high` of them have been submitted so far. */
  datatype Begun = Begun(pkg: Package, jumped: bool, waiting: nat, at: nat, seen: nat, when: nat, high: nat)

  /** What went out: the packages finished, the bytes written, wb_size, the packages begun. */
  datatype Flow = Flow(sent: seq<Package>, wire: seq<Byte>, debt: int, begun: seq<Begun>)

  /** A socket.  `line` is the order in which packages leave it, `subHigh` and `subLow` what
      was submitted, `steps` the number of operations so far. */
  datatype Sock = Sock(kind: Kind, high: WbList, low: WbList, flow: Flow, nextId: nat,
                       line: seq<Package>, subHigh: seq<Package>, subLow: seq<Package>, steps: nat)

  // ---- sequences of packages -----------------------------------------------------

  function Flatten(ps: seq<Package>): seq<Byte> {
    if ps == [] then [] else Flatten(ps[..|ps| - 1]) + ps[|ps| - 1].data
  }

  /** The packages of one priority, in order. */
  function Of(ps: seq<Package>, p: Priority): seq<Package> {
    if ps == [] then [] else
      var x := ps[|ps| - 1];
      if x.prio == p then Of(ps[..|ps| - 1], p) + [x] else Of(ps[..|ps| - 1], p)
  }

  function Packages(bs: seq<Buffer>): (ps: seq<Package>)
    ensures |ps| == |bs|
    ensures forall i :: 0 <= i < |bs| ==> ps[i] == bs[i].pkg
  {
    seq(|bs|, i requires 0 <= i < |bs| => bs[i].pkg)
  }

  function Unsent(bs: seq<Buffer>): int {
    if bs == [] then 0 else |bs[0].pkg.data| - bs[0].off + Unsent(bs[1..])
  }

  /** High-priority packages among the buffers. */
  function Waiting(bs: seq<Buffer>): nat { |Of(Packages(bs), High)| }

  lemma {:induction false} OfJoin(a: seq<Package>, b: seq<Package>, p: Priority)
    ensures Of(a + b, p) == Of(a, p) + Of(b, p)
  {
    if b == [] {
      assert a + b == a;
    } else {
      OfJoin(a, b[..|b| - 1], p);
      assert (a + b)[..|a + b| - 1] == a + b[..|b| - 1];
    }
  }

  lemma {:induction false} OfNone(a: seq<Package>, p: Priority)
    requires forall i :: 0 <= i < |a| ==> a[i].prio != p
    ensures Of(a, p) == []
  {
    if a != [] { OfNone(a[..|a| - 1], p); }
  }

  lemma {:induction false} OfAll(a: seq<Package>, p: Priority)
    requires forall i :: 0 <= i < |a| ==> a[i].prio == p
    ensures Of(a, p) == a
  {
    if a != [] { OfAll(a[..|a| - 1], p); }
  }

  lemma OfNext(line: seq<Package>, pkg: Package)
    ensures Of(line + [pkg], High) == if pkg.prio == High then Of(line, High) + [pkg] else Of(line, High)
    ensures Of(line + [pkg], Low) == if pkg.prio == Low then Of(line, Low) + [pkg] else Of(line, Low)
  {
    assert (line + [pkg])[..|line|] == line;
  }

  lemma {:induction false} UnsentJoin(a: seq<Buffer>, b: seq<Buffer>)
    ensures Unsent(a + b) == Unsent(a) + Unsent(b)
  {
    if a == [] {
      assert a + b == b;
    } else {
      UnsentJoin(a[1..], b);
      assert (a + b)[1..] == a[1..] + b;
    }
  }

  lemma FlattenNext(ps: seq<Package>, x: Package)
    ensures Flatten(ps + [x]) == Flatten(ps) + x.data
  {
    assert (ps + [x])[..|ps|] == ps;
  }

  lemma PackagesNext(bs: seq<Buffer>, b: Buffer)
    ensures Packages(bs + [b]) == Packages(bs) + [b.pkg]
    ensures Unsent(bs + [b]) == Unsent(bs) + |b.pkg.data| - b.off
  {
    UnsentJoin(bs, [b]);
  }

  // ---- draining a list ---------------------------------------------------------------

  /** write() again as long as it is interrupted; with nothing more prescribed it would block. */
  function Retry(script: seq<Io>): (Io, seq<Io>) {
    if script == [] then (Eagain, [])
    else if script[0] == Eintr then Retry(script[1..])
    else (script[0], script[1..])
  }

  /** The bytes a write() of `size` bytes takes. */
  function Took(io: Io, size: nat): (n: nat)
    ensures n <= size
  {
    if !io.Wrote? then 0 else if io.n < size then io.n else size
  }

  predicate InRange(bs: seq<Buffer>) { forall i :: 0 <= i < |bs| ==> bs[i].off <= |bs[i].pkg.data| }

  /** n bytes of `b` go out, at step `when`, after `high` high-priority submissions. */
  function Written(f: Flow, b: Buffer, n: nat, waiting: nat, when: nat, high: nat): Flow
    requires b.off + n <= |b.pkg.data|
  {
    f.(wire := f.wire + b.pkg.data[b.off..b.off + n], debt := f.debt - n,
       begun := if b.off == 0 && n > 0
                then f.begun + [Begun(b.pkg, b.jumped, waiting, b.at, b.seen, when, high)] else f.begun)
  }

  datatype Drain = Drain(flow: Flow, items: seq<Buffer>, script: seq<Io>, ok: bool)

  /** send_list_tcp: package after package, until the list is empty, write() takes no more, or
      it fails (`ok` false). `other` high-priority packages wait on the other list. */
  function SendListF(f: Flow, bs: seq<Buffer>, script: seq<Io>, when: nat, high: nat, other: nat): Drain
    requires InRange(bs)
    decreases |bs|
  {
    if bs == [] then Drain(f, bs, script, true)
    else
      var b, (io, rest) := bs[0], Retry(script);
      var size := |b.pkg.data| - b.off;
      if !io.Wrote? then Drain(f, bs, rest, io != Failed)
      else
        var n := Took(io, size);
        var g := Written(f, b, n, Waiting(bs[1..]) + other, when, high);
        if n != size then Drain(g, [b.(off := b.off + n)] + bs[1..], rest, true)
        else SendListF(g.(sent := g.sent + [b.pkg]), bs[1..], rest, when, high, other)
  }

  /** One turn of send_list_tcp. */
  lemma HeadMeans(f: Flow, bs: seq<Buffer>, script: seq<Io>, when: nat, high: nat, other: nat)
    requires bs != [] && InRange(bs)
    ensures InRange(bs[1..])
    ensures var b, io, rest, d := bs[0], Retry(script).0, Retry(script).1, SendListF(f, bs, script, when, high, other);
      var size := |b.pkg.data| - b.off;
      var g := Written(f, b, Took(io, size), Waiting(bs[1..]) + other, when, high);
      if !io.Wrote? then d == Drain(f, bs, rest, io != Failed)
      else if Took(io, size) != size then d == Drain(g, [b.(off := b.off + Took(io, size))] + bs[1..], rest, true)
      else d == SendListF(g.(sent := g.sent + [b.pkg]), bs[1..], rest, when, high, other)
  {
    hide Waiting, Written;
  }

  // ---- the operations ------------------------------------------------------------------

  datatype Status = Nothing | ReportClose

  /** `failed` tells an I/O error from a close that was waiting for the lists to drain. */
  datatype Result = Result(sock: Sock, status: Status, failed: bool)

  function Closed(s: Sock): Sock { s.(kind := Invalid, high := EMPTY, low := EMPTY) }

  /** The list left over: the tail pointer is cleared with the last buffer. */
  function Rest(l: WbList, bs: seq<Buffer>): WbList { WbList(bs, if bs == [] then -1 else l.tail) }

  /** List `l` of the socket is drained while `o` is the other one. */
  function Emptying(s: Sock, l: WbList, o: WbList, script: seq<Io>): Drain
    requires InRange(l.items)
  {
    SendListF(s.flow, l.items, script, s.steps, |s.subHigh|, Waiting(o.items))
  }

  /** list_uncomplete. */
  predicate Uncomplete(l: WbList) { l.items != [] && l.items[0].off != 0 }

  /** raise_uncomplete. */
  function Raised(s: Sock): Sock {
    if !Uncomplete(s.low) then s
    else s.(high := WbList([s.low.items[0]], s.low.items[0].id),
            low := WbList(s.low.items[1..], if |s.low.items| == 1 then -1 else s.low.tail))
  }

  /** send_buffer. */
  function BufferStep(s: Sock, script: seq<Io>): Result
    requires InRange(s.high.items) && InRange(s.low.items)
  {
    var d := Emptying(s, s.high, s.low, script);
    if !d.ok then Result(Closed(s.(flow := d.flow)), ReportClose, true)
    else
      var t := s.(flow := d.flow, high := Rest(s.high, d.items));
      if t.high.items != [] then Result(t, Nothing, false)
      else if t.low.items != [] then
        var e := Emptying(t, t.low, t.high, d.script);
        if !e.ok then Result(Closed(t.(flow := e.flow)), ReportClose, true)
        else Result(Raised(t.(flow := e.flow, low := Rest(t.low, e.items))), Nothing, false)
      else if t.kind == HalfClose then Result(Closed(t), ReportClose, false)
      else Result(t, Nothing, false)
  }

  function Submit(s: Sock, pkg: Package): Sock {
    if pkg.prio == High then s.(subHigh := s.subHigh + [pkg]) else s.(subLow := s.subLow + [pkg])
  }

  function NewBuffer(s: Sock, pkg: Package, off: nat): Buffer {
    Buffer(s.nextId, pkg, off, pkg.prio == Low && off == 0, s.steps, |s.subHigh|)
  }

  /** An empty socket after a direct write took n bytes of `pkg`: the rest heads the high list,
      whatever its priority. */
  function DirectState(s: Sock, pkg: Package, n: nat): Sock
    requires n <= |pkg.data|
  {
    var b := Buffer(s.nextId, pkg, 0, false, s.steps, |s.subHigh|);
    var f := Written(s.flow.(debt := s.flow.debt + |pkg.data|), b, n, Waiting(s.high.items) + Waiting(s.low.items), s.steps, |s.subHigh|);
    var t := Submit(s, pkg).(line := s.line + [pkg], flow := f);
    if n == |pkg.data| then t.(flow := f.(sent := f.sent + [pkg]))
    else t.(high := WbList(s.high.items + [NewBuffer(s, pkg, n)], s.nextId), nextId := s.nextId + 1)
  }

  /** A socket with `pkg` queued behind its priority. */
  function QueuedState(s: Sock, pkg: Package): Sock {
    var b := NewBuffer(s, pkg, 0).(jumped := false);
    var t := Submit(s, pkg).(flow := s.flow.(debt := s.flow.debt + |pkg.data|), nextId := s.nextId + 1);
    if pkg.prio == Low
    then t.(low := WbList(s.low.items + [b], b.id), line := s.line + [pkg])
    else t.(high := WbList(s.high.items + [b], b.id),
            line := s.flow.sent + Packages(s.high.items) + [pkg] + Packages(s.low.items))
  }

  predicate Empty(s: Sock) { s.high.items == [] && s.low.items == [] }

  /** The socket takes nothing more. */
  predicate Ended(k: Kind) { k == HalfClose || k == Invalid }

  /** send_socket; `io` is what a direct write does. */
  function SendStep(s: Sock, pkg: Package, io: Io): Result {
    if Ended(s.kind) then Result(s, Nothing, false)
    else if Empty(s) && s.kind == Connected then
      if io == Failed then Result(Closed(s), ReportClose, true)
      else Result(DirectState(s, pkg, Took(io, |pkg.data|)), Nothing, false)
    else Result(QueuedState(s, pkg), Nothing, false)
  }

  /** close_socket. */
  function CloseStep(s: Sock, script: seq<Io>): Result
    requires InRange(s.high.items) && InRange(s.low.items)
  {
    if s.kind == Invalid then Result(s, ReportClose, false)
    else
      var r := if Empty(s) then Result(s, Nothing, false) else BufferStep(s, script);
      if r.status != Nothing then r
      else if Empty(r.sock) then Result(Closed(r.sock), ReportClose, false)
      else Result(r.sock.(kind := HalfClose), Nothing, false)
  }

  // ---- what holds between operations --------------------------------------------------

  predicate ExactTail(l: WbList) {
    l.tail == if l.items == [] then -1 else l.items[|l.items| - 1].id
  }

  /** Bytes of the first buffer that are on the wire already. */
  function Started(bs: seq<Buffer>): seq<Byte> {
    if bs == [] || bs[0].off > |bs[0].pkg.data| then [] else bs[0].pkg.data[..bs[0].off]
  }

  /** Only the head may be partly written. */
  predicate HeadOnly(bs: seq<Buffer>) {
    && (forall i :: 0 < i < |bs| ==> bs[i].off == 0)
    && (bs != [] ==> bs[0].off == 0 || bs[0].off < |bs[0].pkg.data|)
  }

  predicate NoneStarted(bs: seq<Buffer>) { forall i :: 0 <= i < |bs| ==> bs[i].off == 0 }

  /** Only the head of the high list may be of low priority, and then because it was begun,
      or jumped. */
  predicate HighList(bs: seq<Buffer>) {
    && (forall i :: 0 < i < |bs| ==> bs[i].pkg.prio == High && !bs[i].jumped)
    && (bs != [] ==> bs[0].pkg.prio == High || bs[0].off > 0 || bs[0].jumped)
  }

  predicate LowList(bs: seq<Buffer>) {
    forall i :: 0 <= i < |bs| ==> bs[i].pkg.prio == Low && !bs[i].jumped
  }

  /** A low-priority package that jumped overtook exactly the high-priority packages submitted
      between its submission and its first byte; no other overtook any. */
  predicate Fair(bg: seq<Begun>) {
    forall i :: 0 <= i < |bg| && bg[i].pkg.prio == Low ==>
      bg[i].waiting == if bg[i].jumped then bg[i].high - bg[i].seen else 0
  }

  /** Everything behind a jumped head that is not begun was submitted after it. */
  predicate JumpedHead(bs: seq<Buffer>, high: nat) {
    bs != [] && bs[0].jumped && bs[0].off == 0 ==> bs[0].seen + |bs| - 1 == high
  }

  function Line(s: Sock): seq<Package> { s.flow.sent + Packages(s.high.items) + Packages(s.low.items) }

  predicate WireOk(s: Sock) {
    s.flow.wire == Flatten(s.flow.sent) + Started(s.high.items) && HeadOnly(s.high.items) && NoneStarted(s.low.items)
  }

  predicate ListsOk(s: Sock) {
    HighList(s.high.items) && LowList(s.low.items) && ExactTail(s.high) && ExactTail(s.low)
  }

  predicate DebtOk(s: Sock) { s.flow.debt == Unsent(s.high.items) + Unsent(s.low.items) }

  predicate LineOk(s: Sock) {
    s.line == Line(s) && Of(s.line, High) == s.subHigh && Of(s.line, Low) == s.subLow
  }

  predicate FairOk(s: Sock) { Fair(s.flow.begun) && JumpedHead(s.high.items, |s.subHigh|) }

  /** Whole packages end to end with at most the last one unfinished, only the head of the
      high list partly sent, wb_size and tails exact, each priority in submission order. */
  predicate Inv(s: Sock) { WireOk(s) && ListsOk(s) && DebtOk(s) && LineOk(s) && FairOk(s) }

  /** Whole packages of the line with at most the last one unfinished. */
  predicate Framed(wire: seq<Byte>, sent: seq<Package>, line: seq<Package>) {
    && sent <= line && Flatten(sent) <= wire
    && (wire == Flatten(sent)
        || (|sent| < |line| && wire[|Flatten(sent)|..] <= line[|sent|].data && wire[|Flatten(sent)|..] != line[|sent|].data))
  }

  /** What holds of closed sockets too. */
  predicate Orderly(s: Sock) {
    && Of(s.line, High) == s.subHigh && Of(s.line, Low) == s.subLow
    && Framed(s.flow.wire, s.flow.sent, s.line) && Fair(s.flow.begun)
  }

  predicate Good(s: Sock) { Orderly(s) && if s.kind == Invalid then s.high == EMPTY && s.low == EMPTY else Inv(s) }

  lemma FramedFrom(sent: seq<Package>, bs: seq<Buffer>, wire: seq<Byte>, line: seq<Package>)
    requires wire == Flatten(sent) + Started(bs) && HeadOnly(bs) && sent + Packages(bs) <= line
    ensures Framed(wire, sent, line)
  {
    hide Flatten;
    if bs != [] && bs[0].off > 0 {
      assert (sent + Packages(bs))[|sent|] == bs[0].pkg;
      assert wire[|Flatten(sent)|..] == Started(bs);
    }
  }

  lemma InvOrderly(s: Sock)
    requires Inv(s)
    ensures Orderly(s) && (s.kind != Invalid ==> Good(s))
  {
    hide Flatten, Of, Started, HeadOnly, Framed, Packages, Unsent, HighList, LowList, NoneStarted, Fair, JumpedHead;
    assert s.flow.sent + Packages(s.high.items) <= s.line;
    FramedFrom(s.flow.sent, s.high.items, s.flow.wire, s.line);
  }

  lemma InvInRange(s: Sock)
    requires Inv(s)
    ensures InRange(s.high.items) && InRange(s.low.items) && !Uncomplete(s.low)
    ensures s.high.items == [] ==> s.high == EMPTY
    ensures s.low.items == [] ==> s.low == EMPTY
  {
    hide Flatten, Of, Started, Packages, Unsent, Fair, HighList, LowList;
  }

  /** With both lists empty everything submitted is on the wire. */
  lemma AllSent(s: Sock)
    requires Inv(s) && Empty(s)
    ensures s.flow.sent == s.line && s.flow.wire == Flatten(s.line) && s.flow.debt == 0
  {
    hide Flatten, Of, Fair;
    assert Packages([]) == [] && Line(s) == s.flow.sent;
  }

  // ---- draining keeps wire, debt and order in agreement ---------------------------------

  /** What draining part of a list leaves unchanged: the line of packages, the debt and the
      agreement of wire and progress; only the new head may have changed, in its offset. */
  predicate Drained(f: Flow, bs: seq<Buffer>, g: Flow, bs': seq<Buffer>) {
    && g.sent + Packages(bs') == f.sent + Packages(bs)
    && g.debt - Unsent(bs') == f.debt - Unsent(bs)
    && g.wire == Flatten(g.sent) + Started(bs')
    && HeadOnly(bs') && Shorter(bs, bs')
  }

  predicate Shorter(bs: seq<Buffer>, bs': seq<Buffer>) {
    |bs'| <= |bs| && (bs' != [] ==> bs'[1..] == bs[|bs| - |bs'| + 1..] && SameBuffer(bs[|bs| - |bs'|], bs'[0]))
  }

  predicate SameBuffer(b: Buffer, b': Buffer) { b' == b.(off := b'.off) && b'.off >= b.off }

  predicate Level(f: Flow, bs: seq<Buffer>) { f.wire == Flatten(f.sent) + Started(bs) && HeadOnly(bs) }

  lemma DrainedNothing(f: Flow, bs: seq<Buffer>)
    requires Level(f, bs)
    ensures Drained(f, bs, f, bs)
  { }

  lemma ShorterThen(a: seq<Buffer>, b: seq<Buffer>, c: seq<Buffer>)
    requires Shorter(a, b) && Shorter(b, c)
    ensures Shorter(a, c)
  {
    if c != [] {
      var k1, k2 := |a| - |b|, |b| - |c|;
      if k2 > 0 { assert b[k2] == b[1..][k2 - 1] == a[k1 + 1..][k2 - 1]; }
      assert c[1..] == b[k2 + 1..] == b[1..][k2..];
    }
  }

  lemma DrainedThen(f: Flow, a: seq<Buffer>, g: Flow, b: seq<Buffer>, h: Flow, c: seq<Buffer>)
    requires Drained(f, a, g, b) && Drained(g, b, h, c)
    ensures Drained(f, a, h, c)
  {
    hide Flatten, Packages, Unsent, Started, HeadOnly, Shorter;
    ShorterThen(a, b, c);
  }

  lemma {:induction false} PartShape(bs: seq<Buffer>, n: nat)
    requires HeadOnly(bs) && bs != [] && bs[0].off + n < |bs[0].pkg.data|
    ensures var rest := [bs[0].(off := bs[0].off + n)] + bs[1..];
      && Packages(rest) == Packages(bs) && Unsent(rest) == Unsent(bs) - n
      && HeadOnly(rest) && Shorter(bs, rest) && Started(rest) == bs[0].pkg.data[..bs[0].off + n]
  {
    var rest := [bs[0].(off := bs[0].off + n)] + bs[1..];
    assert rest[1..] == bs[1..];
  }

  lemma GluePart(a: seq<Byte>, d: seq<Byte>, k: nat, n: nat)
    requires k + n <= |d|
    ensures (a + d[..k]) + d[k..k + n] == a + d[..k + n]
  { }

  /** A write that leaves part of the head. */
  lemma DrainedPart(f: Flow, bs: seq<Buffer>, n: nat, waiting: nat, when: nat, high: nat)
    requires Level(f, bs) && bs != [] && bs[0].off + n < |bs[0].pkg.data|
    ensures Drained(f, bs, Written(f, bs[0], n, waiting, when, high), [bs[0].(off := bs[0].off + n)] + bs[1..])
  {
    hide Flatten, Packages, Unsent, HeadOnly, Shorter;
    PartShape(bs, n);
    GluePart(Flatten(f.sent), bs[0].pkg.data, bs[0].off, n);
  }

  lemma {:induction false} WholeShape(sent: seq<Package>, bs: seq<Buffer>)
    requires HeadOnly(bs) && bs != []
    ensures sent + [bs[0].pkg] + Packages(bs[1..]) == sent + Packages(bs)
    ensures Unsent(bs[1..]) == Unsent(bs) - (|bs[0].pkg.data| - bs[0].off)
    ensures HeadOnly(bs[1..]) && Shorter(bs, bs[1..]) && Started(bs[1..]) == []
    ensures bs[0].off <= |bs[0].pkg.data| && Started(bs) == bs[0].pkg.data[..bs[0].off]
  { }

  /** A write that finishes the head. */
  lemma DrainedWhole(f: Flow, bs: seq<Buffer>, waiting: nat, when: nat, high: nat)
    requires Level(f, bs) && bs != []
    ensures bs[0].off <= |bs[0].pkg.data|
    ensures var g := Written(f, bs[0], |bs[0].pkg.data| - bs[0].off, waiting, when, high);
      Drained(f, bs, g.(sent := g.sent + [bs[0].pkg]), bs[1..])
  {
    hide Flatten, Packages, Unsent, HeadOnly, Shorter, Started;
    var b := bs[0];
    WholeShape(f.sent, bs);
    FlattenNext(f.sent, b.pkg);
    GluePart(Flatten(f.sent), b.pkg.data, b.off, |b.pkg.data| - b.off);
    assert b.pkg.data[..|b.pkg.data|] == b.pkg.data;
    assert Flatten(f.sent) + b.pkg.data + [] == Flatten(f.sent) + b.pkg.data;
  }

  lemma LevelAfter(f: Flow, a: seq<Buffer>, g: Flow, b: seq<Buffer>)
    requires Drained(f, a, g, b)
    ensures Level(g, b) && Shorter(a, b) && InRange(b)
  { }

  lemma {:induction false} DrainedBy(f: Flow, bs: seq<Buffer>, script: seq<Io>, when: nat, high: nat, other: nat)
    requires Level(f, bs) && InRange(bs)
    ensures var d := SendListF(f, bs, script, when, high, other); Drained(f, bs, d.flow, d.items)
    decreases |bs|
  {
    hide Level, Drained, Written, Waiting;
    DrainedNothing(f, bs);
    if bs != [] && Retry(script).0.Wrote? {
      var b, io, rest := bs[0], Retry(script).0, Retry(script).1;
      var size := |b.pkg.data| - b.off;
      var n := Took(io, size);
      var w := Waiting(bs[1..]) + other;
      if n != size {
        DrainedPart(f, bs, n, w, when, high);
      } else {
        DrainedWhole(f, bs, w, when, high);
        var g := Written(f, b, n, w, when, high);
        var h := g.(sent := g.sent + [b.pkg]);
        LevelAfter(f, bs, h, bs[1..]);
        DrainedBy(h, bs[1..], rest, when, high, other);
        var d := SendListF(h, bs[1..], rest, when, high, other);
        DrainedThen(f, bs, h, bs[1..], d.flow, d.items);
      }
    }
  }

  // ---- who overtakes whom ----------------------------------------------------------------

  lemma WaitingBehind(bs: seq<Buffer>)
    requires bs != []
    ensures HighList(bs) ==> Waiting(bs[1..]) == |bs| - 1
    ensures LowList(bs) ==> Waiting(bs[1..]) == 0
  {
    var ps := Packages(bs[1..]);
    if HighList(bs) { OfAll(ps, High); }
    if LowList(bs) { OfNone(ps, High); }
  }

  lemma NoneWaits(bs: seq<Buffer>)
    requires LowList(bs) || bs == []
    ensures Waiting(bs) == 0
  {
    OfNone(Packages(bs), High);
  }

  /** A package that begins at the head of the high or of the low list. */
  lemma BeginsFairly(f: Flow, bs: seq<Buffer>, n: nat, when: nat, high: nat)
    requires bs != [] && bs[0].off + n <= |bs[0].pkg.data| && Fair(f.begun)
    requires (HighList(bs) && JumpedHead(bs, high)) || LowList(bs)
    ensures Fair(Written(f, bs[0], n, Waiting(bs[1..]), when, high).begun)
  {
    WaitingBehind(bs);
    hide Waiting;
  }

  lemma {:induction false} FairBy(f: Flow, bs: seq<Buffer>, script: seq<Io>, when: nat, high: nat, other: nat)
    requires InRange(bs) && Fair(f.begun) && other == 0
    requires (HighList(bs) && JumpedHead(bs, high)) || LowList(bs)
    ensures Fair(SendListF(f, bs, script, when, high, other).flow.begun)
    decreases |bs|
  {
    hide Fair, Written, Waiting;
    if bs != [] && Retry(script).0.Wrote? {
      var b, io, rest := bs[0], Retry(script).0, Retry(script).1;
      var size := |b.pkg.data| - b.off;
      var n := Took(io, size);
      BeginsFairly(f, bs, n, when, high);
      if n == size {
        var g := Written(f, b, n, Waiting(bs[1..]) + other, when, high);
        TailList(bs, high);
        FairBy(g.(sent := g.sent + [b.pkg]), bs[1..], rest, when, high, other);
      }
    }
  }

  lemma TailList(bs: seq<Buffer>, high: nat)
    requires bs != []
    ensures HighList(bs) ==> HighList(bs[1..]) && JumpedHead(bs[1..], high)
    ensures LowList(bs) ==> LowList(bs[1..])
  { }

  // ---- send_buffer keeps the invariant ------------------------------------------------------

  lemma ShorterList(l: WbList, bs': seq<Buffer>, high: nat)
    requires Shorter(l.items, bs') && ExactTail(l)
    ensures ExactTail(Rest(l, bs'))
    ensures HighList(l.items) && JumpedHead(l.items, high) ==> HighList(bs') && JumpedHead(bs', high)
    ensures LowList(l.items) ==> LowList(bs')
    ensures NoneStarted(l.items) ==> bs' == [] || NoneStarted(bs'[1..])
  {
    var bs := l.items;
    if bs' != [] {
      var k := |bs| - |bs'|;
      assert |bs'| > 1 ==> bs'[|bs'| - 1] == bs'[1..][|bs'| - 2] == bs[k + 1..][|bs'| - 2];
      assert forall i :: 0 < i < |bs'| ==> bs'[i] == bs'[1..][i - 1] == bs[k + 1..][i - 1];
    }
  }

  /** Step 1 of send_buffer. */
  function HighSent(s: Sock, d: Drain): Sock { s.(flow := d.flow, high := Rest(s.high, d.items)) }

  lemma HighFacts(s: Sock, script: seq<Io>)
    requires Inv(s) && InRange(s.high.items)
    ensures var d := Emptying(s, s.high, s.low, script);
      && Drained(s.flow, s.high.items, d.flow, d.items) && Fair(d.flow.begun)
      && ExactTail(Rest(s.high, d.items)) && HighList(d.items) && JumpedHead(d.items, |s.subHigh|)
  {
    hide Flatten, Of, Packages, Unsent, SendListF, Started, HeadOnly, Fair, LowList, HighList, JumpedHead, ExactTail, NoneStarted, Shorter;
    var d := Emptying(s, s.high, s.low, script);
    NoneWaits(s.low.items);
    DrainedBy(s.flow, s.high.items, script, s.steps, |s.subHigh|, Waiting(s.low.items));
    FairBy(s.flow, s.high.items, script, s.steps, |s.subHigh|, Waiting(s.low.items));
    LevelAfter(s.flow, s.high.items, d.flow, d.items);
    ShorterList(s.high, d.items, |s.subHigh|);
  }

  /** Draining part of the high list keeps the invariant. */
  lemma HighDrained(s: Sock, d: Drain)
    requires Inv(s) && Drained(s.flow, s.high.items, d.flow, d.items) && Fair(d.flow.begun)
    requires ExactTail(Rest(s.high, d.items)) && HighList(d.items) && JumpedHead(d.items, |s.subHigh|)
    ensures Inv(HighSent(s, d))
  {
    hide Flatten, Of, Packages, Unsent, Started, HeadOnly, Fair, LowList, HighList, JumpedHead, ExactTail, NoneStarted, Shorter;
    var t := HighSent(s, d);
    assert Line(t) == (d.flow.sent + Packages(d.items)) + Packages(s.low.items);
  }

  /** A socket closed by an I/O error keeps its promises for what is on the wire. */
  lemma FailedOrderly(s: Sock, bs: seq<Buffer>, d: Drain)
    requires Inv(s) && Drained(s.flow, bs, d.flow, d.items) && Fair(d.flow.begun) && s.flow.sent + Packages(bs) <= s.line
    ensures Orderly(Closed(s.(flow := d.flow)))
  {
    hide Flatten, Of, Packages, Unsent, Started, HeadOnly, Fair, Framed, Shorter;
    FramedFrom(d.flow.sent, d.items, d.flow.wire, s.line);
  }

  lemma LowFacts(s: Sock, script: seq<Io>)
    requires Inv(s) && s.high.items == [] && InRange(s.low.items)
    ensures var d := Emptying(s, s.low, s.high, script);
      && Drained(s.flow, s.low.items, d.flow, d.items) && Fair(d.flow.begun)
      && ExactTail(Rest(s.low, d.items)) && LowList(d.items) && (d.items != [] ==> NoneStarted(d.items[1..]))
  {
    hide Flatten, Of, Packages, Unsent, SendListF, Fair, LowList, JumpedHead, ExactTail, Shorter;
    var d := Emptying(s, s.low, s.high, script);
    assert Level(s.flow, s.low.items);
    NoneWaits(s.high.items);
    DrainedBy(s.flow, s.low.items, script, s.steps, |s.subHigh|, Waiting(s.high.items));
    FairBy(s.flow, s.low.items, script, s.steps, |s.subHigh|, Waiting(s.high.items));
    LevelAfter(s.flow, s.low.items, d.flow, d.items);
    ShorterList(s.low, d.items, |s.subHigh|);
  }

  /** Steps 2 and 3 of send_buffer. */
  function LowSent(s: Sock, d: Drain): Sock { Raised(s.(flow := d.flow, low := Rest(s.low, d.items))) }

  lemma {:induction false} HeadApart(bs: seq<Buffer>)
    requires bs != []
    ensures Packages(bs) == Packages([bs[0]]) + Packages(bs[1..]) && Unsent(bs) == Unsent([bs[0]]) + Unsent(bs[1..])
    ensures Started([bs[0]]) == Started(bs)
    ensures HeadOnly(bs) ==> HeadOnly([bs[0]]) && (bs[0].off == 0 ==> NoneStarted(bs))
    ensures LowList(bs) ==> LowList(bs[1..])
  { }

  lemma RaisedLists(s: Sock, d: Drain)
    requires s.high == EMPTY && ExactTail(Rest(s.low, d.items)) && LowList(d.items) && HeadOnly(d.items)
    requires d.items != [] ==> NoneStarted(d.items[1..])
    ensures var u := LowSent(s, d);
      && ListsOk(u) && HeadOnly(u.high.items) && NoneStarted(u.low.items) && Started(u.high.items) == Started(d.items)
      && (u.high.items != [] ==> !u.high.items[0].jumped) && JumpedHead(u.high.items, |s.subHigh|)
  {
    if d.items != [] { HeadApart(d.items); }
  }

  lemma RaisedSums(s: Sock, d: Drain)
    requires s.high == EMPTY
    ensures var u := LowSent(s, d);
      && Packages(u.high.items) + Packages(u.low.items) == Packages(d.items)
      && Unsent(u.high.items) + Unsent(u.low.items) == Unsent(d.items)
  {
    if d.items != [] { HeadApart(d.items); }
    assert Packages([]) == [] && Unsent([]) == 0;
  }

  /** Draining part of the low list, then raising a begun head, keeps the invariant. */
  lemma LowDrained(s: Sock, d: Drain)
    requires Inv(s) && s.high == EMPTY && Drained(s.flow, s.low.items, d.flow, d.items) && Fair(d.flow.begun)
    requires ExactTail(Rest(s.low, d.items)) && LowList(d.items) && (d.items != [] ==> NoneStarted(d.items[1..]))
    ensures Inv(LowSent(s, d))
  {
    hide Flatten, Of, Packages, Unsent, Started, HeadOnly, Fair, LowList, HighList, JumpedHead, ExactTail, NoneStarted, Shorter, Raised;
    var u := LowSent(s, d);
    RaisedLists(s, d);
    RaisedSums(s, d);
    LowLine(s);
    RaisedRest(s.(flow := d.flow, low := Rest(s.low, d.items)));
    assert d.flow.sent + Packages(u.high.items) + Packages(u.low.items) == d.flow.sent + Packages(d.items);
  }

  lemma RaisedRest(t: Sock)
    ensures var u := Raised(t); u == t.(high := u.high, low := u.low)
  { }

  lemma LowLine(s: Sock)
    requires s.high == EMPTY
    ensures Line(s) == s.flow.sent + Packages(s.low.items) && Unsent(s.high.items) == 0
  {
    assert Packages([]) == [];
  }

  /** send_buffer: the invariant stays, or the socket is closed in good order; a close that is
      not an error comes after a close request, with everything on the wire. */
  lemma BufferKeeps(s: Sock, script: seq<Io>)
    requires Inv(s) && s.kind != Invalid
    ensures InRange(s.high.items) && InRange(s.low.items)
    ensures var r := BufferStep(s, script);
      && Good(r.sock) && r.sock == s.(kind := r.sock.kind, high := r.sock.high, low := r.sock.low, flow := r.sock.flow)
      && (r.status == Nothing ==> r.sock.kind == s.kind && Inv(r.sock) && !r.failed)
      && (r.status == ReportClose ==> r.sock.kind == Invalid)
      && (r.status == ReportClose && !r.failed ==> s.kind == HalfClose && r.sock.flow.sent == s.line && r.sock.flow.wire == Flatten(s.line))
  {
    hide Inv, Orderly, Drained, Fair, ExactTail, HighList, LowList, JumpedHead, NoneStarted, SendListF, Flatten, Raised;
    InvInRange(s);
    HighFacts(s, script);
    var d := Emptying(s, s.high, s.low, script);
    if !d.ok {
      LinePrefix(s);
      FailedOrderly(s, s.high.items, d);
    } else {
      HighDrained(s, d);
      var t := HighSent(s, d);
      InvOrderly(t);
      InvInRange(t);
      if t.high.items == [] && t.low.items != [] {
        LowKeeps(t, d.script);
      } else if t.high.items == [] && t.kind == HalfClose {
        AllSent(t);
        ClosedOrderly(t);
      }
    }
  }

  lemma LowKeeps(t: Sock, script: seq<Io>)
    requires Inv(t) && t.high.items == [] && InRange(t.low.items)
    ensures var e := Emptying(t, t.low, t.high, script); var u := LowSent(t, e);
      && (if e.ok then Inv(u) && Orderly(u) else Orderly(Closed(t.(flow := e.flow))))
      && u == t.(high := u.high, low := u.low, flow := u.flow)
  {
    hide Inv, Orderly, Drained, Fair, ExactTail, HighList, LowList, JumpedHead, NoneStarted, SendListF, Flatten, Raised;
    InvInRange(t);
    LowFacts(t, script);
    var e := Emptying(t, t.low, t.high, script);
    LinePrefix(t);
    FailedOrderly(t, t.low.items, e);
    LowDrained(t, e);
    InvOrderly(LowSent(t, e));
    RaisedRest(t.(flow := e.flow, low := Rest(t.low, e.items)));
  }

  lemma LinePrefix(s: Sock)
    requires Inv(s)
    ensures s.flow.sent + Packages(s.high.items) <= s.line
    ensures s.high.items == [] ==> s.flow.sent + Packages(s.low.items) <= s.line
  {
    hide Flatten, Of, Unsent;
    assert Packages([]) == [];
  }

  lemma ClosedOrderly(s: Sock)
    requires Orderly(s)
    ensures Orderly(Closed(s)) && Good(Closed(s))
  { }

  // ---- submissions keep the invariant -------------------------------------------------------

  lemma EmptyLists(s: Sock)
    requires Inv(s) && Empty(s)
    ensures s.high == EMPTY && s.low == EMPTY && Packages([]) == [] && Unsent([]) == 0
    ensures s.line == s.flow.sent && s.flow.wire == Flatten(s.flow.sent) && s.flow.debt == 0
    ensures Fair(s.flow.begun) && Of(s.line, High) == s.subHigh && Of(s.line, Low) == s.subLow
    ensures Waiting(s.high.items) == 0 == Waiting(s.low.items)
  {
    hide Flatten, Of, Fair, Waiting;
    AllSent(s);
    NoneWaits(s.high.items);
    NoneWaits(s.low.items);
  }

  /** Written at once in full. */
  lemma DirectWhole(s: Sock, pkg: Package)
    requires Inv(s) && Empty(s)
    ensures Inv(DirectState(s, pkg, |pkg.data|))
  {
    hide Flatten, Of, Packages, Unsent, Inv, Waiting;
    EmptyLists(s);
    OfNext(s.line, pkg);
    FlattenNext(s.flow.sent, pkg);
    var t := DirectState(s, pkg, |pkg.data|);
    assert pkg.data[0..|pkg.data|] == pkg.data;
    assert t.flow.wire == Flatten(t.flow.sent) + [];
    assert Line(t) == t.flow.sent + [] + [];
    Assembled(t);
  }

  /** Written in part, or not at all: the rest heads the high list. */
  lemma DirectPart(s: Sock, pkg: Package, n: nat)
    requires Inv(s) && Empty(s) && n < |pkg.data|
    ensures Inv(DirectState(s, pkg, n))
  {
    hide Flatten, Of, Packages, Unsent, Inv, Waiting;
    EmptyLists(s);
    OfNext(s.line, pkg);
    var t, b := DirectState(s, pkg, n), NewBuffer(s, pkg, n);
    PackagesNext([], b);
    assert [] + [b] == [b] && [] + [pkg] == [pkg];
    assert t.flow.wire == Flatten(t.flow.sent) + pkg.data[0..n];
    assert Line(t) == t.flow.sent + [pkg] + [];
    Assembled(t);
  }

  lemma Assembled(s: Sock)
    requires WireOk(s) && ListsOk(s) && DebtOk(s) && LineOk(s) && FairOk(s)
    ensures Inv(s)
  { }

  lemma DirectKeeps(s: Sock, pkg: Package, n: nat)
    requires Inv(s) && Empty(s) && n <= |pkg.data|
    ensures Inv(DirectState(s, pkg, n))
  {
    hide *;
    if n == |pkg.data| { DirectWhole(s, pkg); } else { DirectPart(s, pkg, n); }
  }

  /** A buffer of which nothing is written may join either list at its end. */
  lemma JoinsEnd(bs: seq<Buffer>, b: Buffer, high: nat)
    requires b.off == 0 && !b.jumped
    ensures NoneStarted(bs) ==> NoneStarted(bs + [b])
    ensures LowList(bs) && b.pkg.prio == Low ==> LowList(bs + [b])
    ensures HighList(bs) && b.pkg.prio == High ==> HighList(bs + [b])
    ensures HeadOnly(bs) ==> HeadOnly(bs + [b])
    ensures Started(bs + [b]) == Started(bs)
    ensures JumpedHead(bs, high) ==> JumpedHead(bs + [b], high + 1)
  { }

  lemma QueueLow(s: Sock, pkg: Package)
    requires Inv(s) && pkg.prio == Low
    ensures Inv(QueuedState(s, pkg))
  {
    hide Flatten, Started, HeadOnly, Of, Packages, Unsent, NoneStarted, LowList, HighList, Fair, JumpedHead;
    var t, b := QueuedState(s, pkg), NewBuffer(s, pkg, 0).(jumped := false);
    OfNext(s.line, pkg);
    PackagesNext(s.low.items, b);
    JoinsEnd(s.low.items, b, |s.subHigh|);
    assert Line(t) == Line(s) + [pkg];
    Assembled(t);
  }

  /** A high-priority package joins the line before the low-priority ones. */
  lemma HighGoesFirst(a: seq<Package>, pkg: Package, l: seq<Package>)
    requires pkg.prio == High && forall i :: 0 <= i < |l| ==> l[i].prio == Low
    ensures Of(a + [pkg] + l, High) == Of(a + l, High) + [pkg]
    ensures Of(a + [pkg] + l, Low) == Of(a + l, Low)
  {
    OfJoin(a, l, High); OfJoin(a, l, Low);
    OfJoin(a + [pkg], l, High); OfJoin(a + [pkg], l, Low);
    OfNext(a, pkg);
    OfNone(l, High);
  }

  lemma QueueHigh(s: Sock, pkg: Package)
    requires Inv(s) && pkg.prio == High
    ensures Inv(QueuedState(s, pkg))
  {
    hide Flatten, Started, HeadOnly, Of, Unsent, NoneStarted, HighList, Fair, JumpedHead;
    var t, b := QueuedState(s, pkg), NewBuffer(s, pkg, 0).(jumped := false);
    var a, l := s.flow.sent + Packages(s.high.items), Packages(s.low.items);
    HighGoesFirst(a, pkg, l);
    PackagesNext(s.high.items, b);
    JoinsEnd(s.high.items, b, |s.subHigh|);
    assert Line(t) == a + [pkg] + l;
    Assembled(t);
  }

  lemma QueuedKeeps(s: Sock, pkg: Package)
    requires Inv(s)
    ensures Inv(QueuedState(s, pkg))
  {
    hide *;
    if pkg.prio == Low { QueueLow(s, pkg); } else { QueueHigh(s, pkg); }
  }

  /** send_socket: taken and recorded, or refused with nothing changed, or closed by an error. */
  lemma SendKeeps(s: Sock, pkg: Package, io: Io)
    requires Good(s)
    ensures var r := SendStep(s, pkg, io);
      && Good(r.sock) && (r.status == ReportClose <==> r.failed) && (r.failed ==> r.sock == Closed(s))
      && (Ended(s.kind) ==> r.sock == s)
      && (!Ended(s.kind) && !r.failed ==> r.sock.kind == s.kind && r.sock.subHigh == Submit(s, pkg).subHigh && r.sock.subLow == Submit(s, pkg).subLow)
  {
    hide Inv, Orderly, Packages;
    if !Ended(s.kind) {
      ClosedOrderly(s);
      if Empty(s) {
        DirectKeeps(s, pkg, Took(io, |pkg.data|));
        InvOrderly(DirectState(s, pkg, Took(io, |pkg.data|)));
      }
      QueuedKeeps(s, pkg);
      InvOrderly(QueuedState(s, pkg));
    }
  }

  // ---- closing -------------------------------------------------------------------------------

  lemma KindKeeps(s: Sock, k: Kind)
    requires Inv(s) && k != Invalid
    ensures Inv(s.(kind := k)) && Good(s.(kind := k))
  {
    hide Flatten, Of, Packages, Unsent, Started, HeadOnly, Fair;
    var t := s.(kind := k);
    assert Line(t) == Line(s);
    Assembled(t);
    InvOrderly(t);
  }

  /** close_socket: without an I/O error the close is reported only with everything submitted
      on the wire; otherwise the socket takes nothing more and keeps what is queued. */
  lemma CloseKeeps(s: Sock, script: seq<Io>)
    requires Good(s)
    ensures s.kind != Invalid ==> InRange(s.high.items) && InRange(s.low.items)
    ensures s.kind != Invalid ==>
      var r := CloseStep(s, script);
      && Good(r.sock) && r.sock == s.(kind := r.sock.kind, high := r.sock.high, low := r.sock.low, flow := r.sock.flow)
      && (r.status == Nothing ==> r.sock.kind == HalfClose && !Empty(r.sock))
      && (r.status == ReportClose ==> r.sock.kind == Invalid)
      && (r.status == ReportClose && !r.failed ==> r.sock.flow.sent == s.line && r.sock.flow.wire == Flatten(s.line))
  {
    hide Inv, Orderly, Flatten, BufferStep;
    if s.kind != Invalid {
      InvInRange(s);
      BufferKeeps(s, script);
      var r := if Empty(s) then Result(s, Nothing, false) else BufferStep(s, script);
      if r.status == Nothing {
        if Empty(r.sock) { AllSent(r.sock); InvOrderly(r.sock); ClosedOrderly(r.sock); } else { KindKeeps(r.sock, HalfClose); }
      }
    }
  }
}
