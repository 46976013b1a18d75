/** Whole runs of a socket: submissions, writable events, close requests, the end of a connect
    and of the connection, in any order and against any behaviour of write(). */
module WriteRuns {
  import opened WriteLists

  /** One operation on the socket, with what the system calls in it do. */
  datatype Op =
    | Submission(pkg: Package, io: Io)
    | Writable(script: seq<Io>)
    | CloseRequest(script: seq<Io>)
    | ConnectDone(ok: bool)
    | PeerClosed

  function Outcome(s: Sock, op: Op): Result
    requires InRange(s.high.items) && InRange(s.low.items)
  {
    match op
    case Submission(pkg, io) => SendStep(s, pkg, io)
    case Writable(script) =>
      if s.kind == Connected || s.kind == HalfClose then BufferStep(s, script) else Result(s, Nothing, false)
    case CloseRequest(script) => CloseStep(s, script)
    case ConnectDone(ok) =>
      if s.kind != Connecting then Result(s, Nothing, false)
      else if ok then Result(s.(kind := Connected), Nothing, false)
      else Result(Closed(s), ReportClose, true)
    case PeerClosed => if s.kind == Invalid then Result(s, Nothing, false) else Result(Closed(s), ReportClose, true)
  }

  function Step(s: Sock, op: Op): Sock
    requires InRange(s.high.items) && InRange(s.low.items)
  {
    Outcome(s, op).sock.(steps := s.steps + 1)
  }

  function Start(kind: Kind): Sock { Sock(kind, EMPTY, EMPTY, Flow([], [], 0, []), 0, [], [], [], 0) }

  lemma StartGood(kind: Kind)
    requires kind != Invalid
    ensures Good(Start(kind))
  {
    var s := Start(kind);
    assert Packages([]) == [] && Line(s) == [];
    InvOrderly(s);
  }

  lemma GoodInRange(s: Sock)
    requires Good(s)
    ensures InRange(s.high.items) && InRange(s.low.items)
  {
    hide Inv, Orderly;
    if s.kind != Invalid { InvInRange(s); }
  }

  lemma StepsSame(s: Sock, n: nat)
    requires Good(s)
    ensures Good(s.(steps := n))
  {
    hide Flatten, Of, Packages, Unsent, Started, HeadOnly, Fair, Framed;
    assert Line(s.(steps := n)) == Line(s);
  }

  /** Every operation keeps what a socket promises, whatever the system calls do. */
  lemma StepKeeps(s: Sock, op: Op)
    requires Good(s)
    ensures InRange(s.high.items) && InRange(s.low.items) && Good(Step(s, op)) && Step(s, op).steps == s.steps + 1
  {
    hide Inv, Orderly, SendStep, BufferStep, CloseStep;
    GoodInRange(s);
    match op {
      case Submission(pkg, io) => SendKeeps(s, pkg, io);
      case Writable(script) => if s.kind != Invalid { BufferKeeps(s, script); }
      case CloseRequest(script) =>
        CloseKeeps(s, script);
        if s.kind == Invalid { ClosedStays(s, script); }
      case ConnectDone(ok) =>
        if s.kind != Invalid { KindKeeps(s, Connected); ClosedOrderly(s); }
      case PeerClosed => ClosedOrderly(s);
    }
    StepsSame(Outcome(s, op).sock, s.steps + 1);
  }

  lemma ClosedStays(s: Sock, script: seq<Io>)
    requires s.kind == Invalid && InRange(s.high.items) && InRange(s.low.items)
    ensures CloseStep(s, script).sock == s
  { }

  /** The socket after a run that began with a connect under way or a connected socket. */
  function After(start: Kind, ops: seq<Op>): (s: Sock)
    requires start == Connecting || start == Connected
    ensures Good(s) && InRange(s.high.items) && InRange(s.low.items) && s.steps == |ops|
  {
    if ops == [] then
      StartGood(start);
      GoodInRange(Start(start));
      Start(start)
    else
      var r, op := After(start, ops[..|ops| - 1]), ops[|ops| - 1];
      StepKeeps(r, op);
      GoodInRange(Step(r, op));
      Step(r, op)
  }

  // ---- what later operations cannot undo -----------------------------------------------------

  /** What is out stays out, and a socket that takes nothing more never takes anything again. */
  predicate Later(s: Sock, t: Sock) {
    && s.flow.wire <= t.flow.wire && s.flow.sent <= t.flow.sent && s.flow.begun <= t.flow.begun
    && s.subHigh <= t.subHigh && s.subLow <= t.subLow
    && (Ended(s.kind) ==> Ended(t.kind) && t.subHigh == s.subHigh && t.subLow == s.subLow && t.line == s.line)
    && (s.kind == Invalid ==> t.kind == Invalid && t.flow == s.flow)
  }

  predicate Grows(f: Flow, g: Flow) { f.wire <= g.wire && f.sent <= g.sent && f.begun <= g.begun }

  lemma {:induction false} ListGrows(f: Flow, bs: seq<Buffer>, script: seq<Io>, when: nat, high: nat, other: nat)
    requires InRange(bs)
    ensures Grows(f, SendListF(f, bs, script, when, high, other).flow)
    decreases |bs|
  {
    hide Waiting;
    if bs != [] && Retry(script).0.Wrote? {
      var b, io, rest := bs[0], Retry(script).0, Retry(script).1;
      var n := Took(io, |b.pkg.data| - b.off);
      if n == |b.pkg.data| - b.off {
        var g := Written(f, b, n, Waiting(bs[1..]) + other, when, high);
        ListGrows(g.(sent := g.sent + [b.pkg]), bs[1..], rest, when, high, other);
      }
    }
  }

  lemma BufferLater(s: Sock, script: seq<Io>)
    requires InRange(s.high.items) && InRange(s.low.items)
    ensures var r := BufferStep(s, script);
      && Grows(s.flow, r.sock.flow) && r.sock.subHigh == s.subHigh && r.sock.subLow == s.subLow && r.sock.line == s.line
      && (r.sock.kind == s.kind || r.sock.kind == Invalid)
  {
    hide SendListF, Grows;
    var d := Emptying(s, s.high, s.low, script);
    ListGrows(s.flow, s.high.items, script, s.steps, |s.subHigh|, Waiting(s.low.items));
    var t := HighSent(s, d);
    ListGrows(d.flow, s.low.items, d.script, s.steps, |s.subHigh|, Waiting(t.high.items));
    GrowsThen(s.flow, d.flow, Emptying(t, t.low, t.high, d.script).flow);
  }

  lemma GrowsThen(f: Flow, g: Flow, h: Flow)
    requires Grows(f, g) && Grows(g, h)
    ensures Grows(f, h)
  { }

  lemma CloseLater(s: Sock, script: seq<Io>)
    requires InRange(s.high.items) && InRange(s.low.items)
    ensures Later(s, CloseStep(s, script).sock)
  {
    hide BufferStep;
    BufferLater(s, script);
  }

  lemma SendLater(s: Sock, pkg: Package, io: Io)
    ensures Later(s, SendStep(s, pkg, io).sock)
  {
    hide Packages;
  }

  lemma StepLater(s: Sock, op: Op)
    requires InRange(s.high.items) && InRange(s.low.items)
    ensures Later(s, Step(s, op))
  {
    hide BufferStep, CloseStep, SendStep;
    match op
    case Submission(pkg, io) => SendLater(s, pkg, io);
    case Writable(script) => BufferLater(s, script);
    case CloseRequest(script) => CloseLater(s, script);
    case _ =>
  }

  lemma LaterThen(r: Sock, s: Sock, t: Sock)
    requires Later(r, s) && Later(s, t)
    ensures Later(r, t)
  { }

  lemma LaterSame(s: Sock)
    ensures Later(s, s)
  { }

  /** The state after more operations. */
  lemma {:induction false} RunLater(start: Kind, ops: seq<Op>, i: nat)
    requires (start == Connecting || start == Connected) && i <= |ops|
    ensures Later(After(start, ops[..i]), After(start, ops))
    decreases |ops|
  {
    hide Good, Later, Step;
    if i == |ops| {
      assert ops[..i] == ops;
      LaterSame(After(start, ops));
    } else {
      var front := ops[..|ops| - 1];
      RunLater(start, front, i);
      assert front[..i] == ops[..i];
      StepLater(After(start, front), ops[|ops| - 1]);
      LaterThen(After(start, ops[..i]), After(start, front), After(start, ops));
    }
  }

  lemma AfterNext(start: Kind, ops: seq<Op>, i: nat)
    requires (start == Connecting || start == Connected) && i < |ops|
    ensures After(start, ops[..i + 1]) == Step(After(start, ops[..i]), ops[i])
  {
    hide Good, Step;
    assert ops[..i + 1][..i] == ops[..i];
  }

  // ---- the promises over whole runs -----------------------------------------------------------

  /** In every run the wire carries whole packages of the line end to end with at most the last
      one unfinished, and each priority leaves in the order of submission. */
  lemma WireSafe(start: Kind, ops: seq<Op>)
    requires start == Connecting || start == Connected
    ensures var s := After(start, ops);
      Framed(s.flow.wire, s.flow.sent, s.line) && Of(s.line, High) == s.subHigh && Of(s.line, Low) == s.subLow
  { }

  /** A package is submitted exactly if the socket is neither closed nor closing and the direct
      write, if there is one, does not fail. */
  lemma SubmissionTaken(start: Kind, ops: seq<Op>, i: nat)
    requires (start == Connecting || start == Connected) && i < |ops| && ops[i].Submission?
    ensures var s, t := After(start, ops[..i]), After(start, ops[..i + 1]);
      var u := if Ended(s.kind) || (Empty(s) && s.kind == Connected && ops[i].io == Failed) then s else Submit(s, ops[i].pkg);
      t.subHigh == u.subHigh && t.subLow == u.subLow
  {
    hide Good, After, SendStep;
    AfterNext(start, ops, i);
    SendTakes(After(start, ops[..i]), ops[i].pkg, ops[i].io);
  }

  lemma SendTakes(s: Sock, pkg: Package, io: Io)
    ensures var t := SendStep(s, pkg, io).sock;
      var u := if Ended(s.kind) || (Empty(s) && s.kind == Connected && io == Failed) then s else Submit(s, pkg);
      t.subHigh == u.subHigh && t.subLow == u.subLow
  {
    hide Packages;
  }

  /** Nothing is taken after a close request. */
  lemma NothingAfterClose(start: Kind, ops: seq<Op>, i: nat)
    requires (start == Connecting || start == Connected) && i < |ops| && ops[i].CloseRequest?
    ensures var s, t := After(start, ops[..i]), After(start, ops);
      Ended(t.kind) && t.subHigh == s.subHigh && t.subLow == s.subLow && t.line == s.line
  {
    hide Good, Orderly, Inv, CloseStep;
    AfterNext(start, ops, i);
    RunLater(start, ops, i + 1);
    var s := After(start, ops[..i]);
    CloseEnds(s, ops[i].script);
  }

  lemma CloseEnds(s: Sock, script: seq<Io>)
    requires Good(s) && InRange(s.high.items) && InRange(s.low.items)
    ensures var t := CloseStep(s, script).sock;
      Ended(t.kind) && t.subHigh == s.subHigh && t.subLow == s.subLow && t.line == s.line
  {
    hide Inv, Orderly, BufferStep;
    CloseKeeps(s, script);
  }

  /** Operation i reports the close of a live socket without an I/O error. */
  predicate CleanClose(start: Kind, ops: seq<Op>, i: nat)
    requires (start == Connecting || start == Connected) && i < |ops|
  {
    var s := After(start, ops[..i]);
    var r := Outcome(s, ops[i]);
    s.kind != Invalid && r.status == ReportClose && !r.failed
  }

  /** With a clean close every byte submitted before it is on the wire, for good; and a clean
      close comes with a close request or after one. */
  lemma CleanCloseSent(start: Kind, ops: seq<Op>, i: nat)
    requires (start == Connecting || start == Connected) && i < |ops| && CleanClose(start, ops, i)
    ensures var s, t := After(start, ops[..i]), After(start, ops);
      && t.flow.wire == Flatten(s.line) && t.flow.sent == s.line && t.kind == Invalid
      && Of(s.line, High) == s.subHigh && Of(s.line, Low) == s.subLow
      && (ops[i].CloseRequest? || s.kind == HalfClose)
  {
    hide Orderly, Inv, Outcome, Flatten, Of, Good, After;
    AfterNext(start, ops, i);
    RunLater(start, ops, i + 1);
    WireSafe(start, ops[..i]);
    CleanOutcome(After(start, ops[..i]), ops[i]);
  }

  lemma CleanOutcome(s: Sock, op: Op)
    requires Good(s) && s.kind != Invalid && InRange(s.high.items) && InRange(s.low.items)
    ensures var r := Outcome(s, op); r.status == ReportClose && !r.failed ==>
      && r.sock.flow.wire == Flatten(s.line) && r.sock.flow.sent == s.line && r.sock.kind == Invalid
      && (op.CloseRequest? || s.kind == HalfClose)
  {
    hide Orderly, Inv, CloseStep, BufferStep, SendStep, Flatten, Of;
    match op {
      case Writable(script) => BufferKeeps(s, script);
      case CloseRequest(script) => CloseKeeps(s, script);
      case Submission(pkg, io) => SendKeeps(s, pkg, io);
      case _ =>
    }
  }

  /** A socket becomes half-closed only by a close request. */
  lemma {:induction false} HalfClosed(start: Kind, ops: seq<Op>)
    requires (start == Connecting || start == Connected) && After(start, ops).kind == HalfClose
    ensures exists i :: 0 <= i < |ops| && ops[i].CloseRequest?
    decreases |ops|
  {
    hide Good, BufferStep, SendStep;
    if ops != [] {
      var front, op := ops[..|ops| - 1], ops[|ops| - 1];
      var s := After(start, front);
      if op.CloseRequest? { assert ops[|ops| - 1].CloseRequest?; }
      else {
        OnlyCloseHalves(s, op);
        HalfClosed(start, front);
        var i :| 0 <= i < |front| && front[i].CloseRequest?;
        assert ops[i].CloseRequest?;
      }
    }
  }

  lemma OnlyCloseHalves(s: Sock, op: Op)
    requires InRange(s.high.items) && InRange(s.low.items) && !op.CloseRequest?
    ensures Step(s, op).kind == HalfClose ==> s.kind == HalfClose
  {
    hide BufferStep, Packages;
    if op.Writable? { BufferLater(s, op.script); }
  }

  // ---- when a low-priority package overtakes ---------------------------------------------------

  /** The direct write of a package took no byte. */
  predicate TookNothing(s: Sock, op: Op) {
    && op.Submission? && !Ended(s.kind) && Empty(s) && s.kind == Connected
    && op.io != Failed && Took(op.io, |op.pkg.data|) == 0 && |op.pkg.data| > 0
  }

  /** `pkg` was submitted by operation `at`, after `seen` high-priority packages; `jumped` tells
      whether it is of low priority and its direct write took no byte. */
  ghost predicate Submitted(start: Kind, ops: seq<Op>, pkg: Package, at: nat, seen: nat, jumped: bool)
    requires start == Connecting || start == Connected
  {
    && at < |ops| && ops[at].Submission? && ops[at].pkg == pkg
    && seen == |After(start, ops[..at]).subHigh|
    && (jumped <==> pkg.prio == Low && TookNothing(After(start, ops[..at]), ops[at]))
  }

  ghost predicate BuffersFrom(start: Kind, ops: seq<Op>, bs: seq<Buffer>)
    requires start == Connecting || start == Connected
  {
    forall i :: 0 <= i < |bs| ==> Submitted(start, ops, bs[i].pkg, bs[i].at, bs[i].seen, bs[i].jumped)
  }

  /** Each record of a first byte tells its package's submission and the moment truly. */
  ghost predicate BegunFrom(start: Kind, ops: seq<Op>, bg: seq<Begun>)
    requires start == Connecting || start == Connected
  {
    forall i :: 0 <= i < |bg| ==>
      && Submitted(start, ops, bg[i].pkg, bg[i].at, bg[i].seen, bg[i].jumped)
      && bg[i].at <= bg[i].when < |ops| && bg[i].high == |After(start, ops[..bg[i].when]).subHigh|
  }

  lemma SubmittedStays(start: Kind, ops: seq<Op>, op: Op, pkg: Package, at: nat, seen: nat, jumped: bool)
    requires start == Connecting || start == Connected
    requires Submitted(start, ops, pkg, at, seen, jumped)
    ensures Submitted(start, ops + [op], pkg, at, seen, jumped)
  {
    hide After, TookNothing;
    assert (ops + [op])[..at] == ops[..at];
  }

  lemma FromStays(start: Kind, ops: seq<Op>, op: Op, bs: seq<Buffer>, bg: seq<Begun>)
    requires start == Connecting || start == Connected
    requires BuffersFrom(start, ops, bs) && BegunFrom(start, ops, bg)
    ensures BuffersFrom(start, ops + [op], bs) && BegunFrom(start, ops + [op], bg)
  {
    hide After, Submitted;
    forall i | 0 <= i < |bs| ensures Submitted(start, ops + [op], bs[i].pkg, bs[i].at, bs[i].seen, bs[i].jumped) {
      SubmittedStays(start, ops, op, bs[i].pkg, bs[i].at, bs[i].seen, bs[i].jumped);
    }
    forall i | 0 <= i < |bg|
      ensures Submitted(start, ops + [op], bg[i].pkg, bg[i].at, bg[i].seen, bg[i].jumped)
           && (ops + [op])[..bg[i].when] == ops[..bg[i].when]
    {
      SubmittedStays(start, ops, op, bg[i].pkg, bg[i].at, bg[i].seen, bg[i].jumped);
    }
  }

  /** The record of the first byte of `b`. */
  predicate BegunOf(x: Begun, b: Buffer, when: nat, high: nat) {
    x.pkg == b.pkg && x.jumped == b.jumped && x.at == b.at && x.seen == b.seen && x.when == when && x.high == high
  }

  ghost predicate OneOf(x: Begun, bs: seq<Buffer>, when: nat, high: nat) {
    exists j :: 0 <= j < |bs| && BegunOf(x, bs[j], when, high)
  }

  /** Draining a list only adds records of its own buffers. */
  ghost predicate NewBegun(prev: seq<Begun>, bg: seq<Begun>, bs: seq<Buffer>, when: nat, high: nat) {
    prev <= bg && forall i :: |prev| <= i < |bg| ==> OneOf(bg[i], bs, when, high)
  }

  lemma {:induction false} ListBegins(f: Flow, bs: seq<Buffer>, script: seq<Io>, when: nat, high: nat, other: nat)
    requires InRange(bs)
    ensures NewBegun(f.begun, SendListF(f, bs, script, when, high, other).flow.begun, bs, when, high)
    decreases |bs|
  {
    hide Waiting;
    if bs != [] && Retry(script).0.Wrote? {
      var b, io, rest := bs[0], Retry(script).0, Retry(script).1;
      var n := Took(io, |b.pkg.data| - b.off);
      var g := Written(f, b, n, Waiting(bs[1..]) + other, when, high);
      FirstBegins(f, bs, n, Waiting(bs[1..]) + other, when, high);
      if n == |b.pkg.data| - b.off {
        var h := g.(sent := g.sent + [b.pkg]);
        ListBegins(h, bs[1..], rest, when, high, other);
        BegunTail(f.begun, g.begun, SendListF(h, bs[1..], rest, when, high, other).flow.begun, bs, when, high);
      }
    }
  }

  lemma FirstBegins(f: Flow, bs: seq<Buffer>, n: nat, waiting: nat, when: nat, high: nat)
    requires bs != [] && bs[0].off + n <= |bs[0].pkg.data|
    ensures NewBegun(f.begun, Written(f, bs[0], n, waiting, when, high).begun, bs, when, high)
  {
    var g := Written(f, bs[0], n, waiting, when, high);
    forall i | |f.begun| <= i < |g.begun| ensures OneOf(g.begun[i], bs, when, high) {
      assert BegunOf(g.begun[i], bs[0], when, high);
    }
  }

  lemma {:induction false} BegunTail(a: seq<Begun>, b: seq<Begun>, c: seq<Begun>, bs: seq<Buffer>, when: nat, high: nat)
    requires bs != [] && NewBegun(a, b, bs, when, high) && NewBegun(b, c, bs[1..], when, high)
    ensures NewBegun(a, c, bs, when, high)
  {
    assert a <= c;
    forall i | |a| <= i < |c| ensures OneOf(c[i], bs, when, high) {
      if i < |b| {
        assert c[i] == b[i];
      } else {
        assert OneOf(c[i], bs[1..], when, high);
        var j :| 0 <= j < |bs[1..]| && BegunOf(c[i], bs[1..][j], when, high);
        assert BegunOf(c[i], bs[j + 1], when, high);
      }
    }
  }

  /** The state's buffers and records are true of the run. */
  ghost predicate Told(start: Kind, ops: seq<Op>, s: Sock)
    requires start == Connecting || start == Connected
  {
    BuffersFrom(start, ops, s.high.items) && BuffersFrom(start, ops, s.low.items) && BegunFrom(start, ops, s.flow.begun)
  }

  lemma DrainTold(start: Kind, ops: seq<Op>, bs: seq<Buffer>, bs': seq<Buffer>, bg: seq<Begun>, bg': seq<Begun>, op: Op, s: Sock)
    requires (start == Connecting || start == Connected) && s == After(start, ops)
    requires BuffersFrom(start, ops + [op], bs) && BegunFrom(start, ops + [op], bg) && BuffersFrom(start, ops, bs)
    requires Shorter(bs, bs') && NewBegun(bg, bg', bs, |ops|, |s.subHigh|)
    ensures BuffersFrom(start, ops + [op], bs') && BegunFrom(start, ops + [op], bg')
  {
    hide After, Submitted;
    var next := ops + [op];
    forall i | 0 <= i < |bs'| ensures Submitted(start, next, bs'[i].pkg, bs'[i].at, bs'[i].seen, bs'[i].jumped) {
      var k := |bs| - |bs'|;
      if i > 0 { assert bs'[i] == bs'[1..][i - 1] == bs[k + 1..][i - 1]; }
      assert Submitted(start, next, bs[k + i].pkg, bs[k + i].at, bs[k + i].seen, bs[k + i].jumped);
    }
    assert next[..|ops|] == ops;
    forall i | |bg| <= i < |bg'|
      ensures Submitted(start, next, bg'[i].pkg, bg'[i].at, bg'[i].seen, bg'[i].jumped)
           && bg'[i].at <= bg'[i].when == |ops| && bg'[i].high == |s.subHigh|
    {
      assert OneOf(bg'[i], bs, |ops|, |s.subHigh|);
      var j :| 0 <= j < |bs| && BegunOf(bg'[i], bs[j], |ops|, |s.subHigh|);
      assert Submitted(start, next, bs[j].pkg, bs[j].at, bs[j].seen, bs[j].jumped);
      SubmittedBefore(start, ops, bs, j);
    }
  }

  lemma SubmittedBefore(start: Kind, ops: seq<Op>, bs: seq<Buffer>, j: nat)
    requires (start == Connecting || start == Connected) && BuffersFrom(start, ops, bs) && j < |bs|
    ensures bs[j].at < |ops|
  { }

  lemma BufferTold(start: Kind, ops: seq<Op>, op: Op, script: seq<Io>)
    requires start == Connecting || start == Connected
    requires After(start, ops).kind != Invalid && Told(start, ops, After(start, ops))
    ensures Told(start, ops + [op], BufferStep(After(start, ops), script).sock)
  {
    hide After, BuffersFrom, BegunFrom, SendListF, NewBegun, Shorter, Inv, Orderly;
    var s := After(start, ops);
    var d := Emptying(s, s.high, s.low, script);
    FromStays(start, ops, op, s.high.items, s.flow.begun);
    FromStays(start, ops, op, s.low.items, s.flow.begun);
    NoBuffers(start, ops + [op]);
    HighShape(s, script);
    DrainTold(start, ops, s.high.items, d.items, s.flow.begun, d.flow.begun, op, s);
    if d.ok && d.items == [] && s.low.items != [] {
      var t := HighSent(s, d);
      var e := Emptying(t, t.low, t.high, d.script);
      LowShape(s, script);
      DrainTold(start, ops, s.low.items, e.items, d.flow.begun, e.flow.begun, op, s);
      RaisedTold(start, ops + [op], t.(flow := e.flow, low := Rest(t.low, e.items)));
    }
  }

  lemma HighShape(s: Sock, script: seq<Io>)
    requires Inv(s) && InRange(s.high.items)
    ensures var d := Emptying(s, s.high, s.low, script);
      Shorter(s.high.items, d.items) && NewBegun(s.flow.begun, d.flow.begun, s.high.items, s.steps, |s.subHigh|)
  {
    hide Inv, SendListF, NewBegun, Shorter;
    HighFacts(s, script);
    var d := Emptying(s, s.high, s.low, script);
    LevelAfter(s.flow, s.high.items, d.flow, d.items);
    ListBegins(s.flow, s.high.items, script, s.steps, |s.subHigh|, Waiting(s.low.items));
  }

  lemma LowShape(s: Sock, script: seq<Io>)
    requires Inv(s) && InRange(s.high.items) && InRange(s.low.items)
    requires Emptying(s, s.high, s.low, script).items == []
    ensures var d := Emptying(s, s.high, s.low, script); var t := HighSent(s, d); var e := Emptying(t, t.low, t.high, d.script);
      Shorter(s.low.items, e.items) && NewBegun(d.flow.begun, e.flow.begun, s.low.items, s.steps, |s.subHigh|)
  {
    hide Inv, SendListF, NewBegun, Shorter, Drained, HighList, JumpedHead, ExactTail, Fair;
    HighFacts(s, script);
    var d := Emptying(s, s.high, s.low, script);
    HighDrained(s, d);
    var t := HighSent(s, d);
    LowFacts(t, d.script);
    var e := Emptying(t, t.low, t.high, d.script);
    LevelAfter(t.flow, t.low.items, e.flow, e.items);
    ListBegins(t.flow, t.low.items, d.script, t.steps, |t.subHigh|, Waiting(t.high.items));
  }

  lemma NoBuffers(start: Kind, ops: seq<Op>)
    requires start == Connecting || start == Connected
    ensures BuffersFrom(start, ops, EMPTY.items)
  { }

  lemma RaisedTold(start: Kind, ops: seq<Op>, t: Sock)
    requires (start == Connecting || start == Connected) && Told(start, ops, t)
    ensures Told(start, ops, Raised(t))
  {
    hide After, Submitted;
  }

  lemma SendTold(start: Kind, ops: seq<Op>, op: Op)
    requires (start == Connecting || start == Connected) && op.Submission?
    requires Told(start, ops, After(start, ops))
    ensures Told(start, ops + [op], SendStep(After(start, ops), op.pkg, op.io).sock)
  {
    hide After, BegunFrom, BuffersFrom, Good, Packages;
    var s, next := After(start, ops), ops + [op];
    FromStays(start, ops, op, s.high.items, s.flow.begun);
    FromStays(start, ops, op, s.low.items, s.flow.begun);
    NoBuffers(start, next);
    assert next[..|ops|] == ops && next[|ops|] == op;
    if !Ended(s.kind) {
      if Empty(s) && s.kind == Connected {
        if op.io != Failed { DirectTold(start, ops, op, s); }
      } else {
        var b := NewBuffer(s, op.pkg, 0).(jumped := false);
        BufferJoins(start, next, s.high.items, b);
        BufferJoins(start, next, s.low.items, b);
      }
    }
  }

  lemma BufferJoins(start: Kind, ops: seq<Op>, bs: seq<Buffer>, b: Buffer)
    requires (start == Connecting || start == Connected) && BuffersFrom(start, ops, bs)
    requires Submitted(start, ops, b.pkg, b.at, b.seen, b.jumped)
    ensures BuffersFrom(start, ops, bs + [b])
  {
    hide Submitted;
  }

  lemma DirectTold(start: Kind, ops: seq<Op>, op: Op, s: Sock)
    requires (start == Connecting || start == Connected) && op.Submission? && s == After(start, ops) && op.io != Failed
    requires Empty(s) && s.kind == Connected && s.steps == |ops|
    requires BuffersFrom(start, ops + [op], s.high.items) && BuffersFrom(start, ops + [op], s.low.items)
    requires BegunFrom(start, ops + [op], s.flow.begun)
    ensures Told(start, ops + [op], DirectState(s, op.pkg, Took(op.io, |op.pkg.data|)))
  {
    hide After, BuffersFrom, BegunFrom, Submitted;
    var next, n := ops + [op], Took(op.io, |op.pkg.data|);
    var b := NewBuffer(s, op.pkg, n);
    DirectSubmitted(start, ops, op, s);
    if n < |op.pkg.data| { BufferJoins(start, next, s.high.items, b); }
    NoneWaits(s.high.items);
    NoneWaits(s.low.items);
    var x := Begun(op.pkg, false, 0, |ops|, |s.subHigh|, |ops|, |s.subHigh|);
    if n > 0 { BegunJoins(start, ops, op, s, x); }
  }

  lemma DirectSubmitted(start: Kind, ops: seq<Op>, op: Op, s: Sock)
    requires (start == Connecting || start == Connected) && op.Submission? && s == After(start, ops) && op.io != Failed
    requires Empty(s) && s.kind == Connected && s.steps == |ops|
    ensures var n := Took(op.io, |op.pkg.data|); n < |op.pkg.data| || n > 0 ==>
      Submitted(start, ops + [op], op.pkg, |ops|, |s.subHigh|, op.pkg.prio == Low && n == 0)
  {
    hide After;
    var next := ops + [op];
    assert next[..|ops|] == ops && next[|ops|] == op;
  }

  lemma BegunJoins(start: Kind, ops: seq<Op>, op: Op, s: Sock, x: Begun)
    requires (start == Connecting || start == Connected) && s == After(start, ops)
    requires BegunFrom(start, ops + [op], s.flow.begun) && x.at == x.when == |ops| && x.high == |s.subHigh|
    requires Submitted(start, ops + [op], x.pkg, x.at, x.seen, x.jumped)
    ensures BegunFrom(start, ops + [op], s.flow.begun + [x])
  {
    hide After, Submitted;
    assert (ops + [op])[..|ops|] == ops;
  }

  lemma {:induction false} RunTold(start: Kind, ops: seq<Op>)
    requires start == Connecting || start == Connected
    ensures Told(start, ops, After(start, ops))
    decreases |ops|
  {
    hide Good, BuffersFrom, BegunFrom, SendStep, BufferStep, Inv, Orderly;
    if ops == [] {
      NoBuffers(start, ops);
      NothingBegun(start, ops);
    } else {
      var front, op := ops[..|ops| - 1], ops[|ops| - 1];
      var s := After(start, front);
      RunTold(start, front);
      assert front + [op] == ops;
      FromStays(start, front, op, s.high.items, s.flow.begun);
      FromStays(start, front, op, s.low.items, s.flow.begun);
      NoBuffers(start, ops);
      if s.kind != Invalid && (op.Writable? || op.CloseRequest?) { BufferTold(start, front, op, op.script); }
      if op.Submission? { SendTold(start, front, op); }
    }
  }

  lemma NothingBegun(start: Kind, ops: seq<Op>)
    requires start == Connecting || start == Connected
    ensures BegunFrom(start, ops, [])
  { }

  /** In every run, for the first byte of each low-priority package: high-priority packages wait
      behind it if and only if its own direct write took no byte and one of them was submitted
      between its submission and that byte; it overtakes exactly those. */
  lemma OvertakeIff(start: Kind, ops: seq<Op>, i: nat)
    requires (start == Connecting || start == Connected) && i < |After(start, ops).flow.begun|
    requires After(start, ops).flow.begun[i].pkg.prio == Low
    ensures var b := After(start, ops).flow.begun[i];
      && b.at <= b.when < |ops| && ops[b.at].Submission? && ops[b.at].pkg == b.pkg
      && (b.waiting > 0 <==>
            && TookNothing(After(start, ops[..b.at]), ops[b.at])
            && |After(start, ops[..b.when]).subHigh| > |After(start, ops[..b.at]).subHigh|)
      && (b.waiting > 0 ==> b.waiting == |After(start, ops[..b.when]).subHigh| - |After(start, ops[..b.at]).subHigh|)
  {
    hide After, TookNothing, Inv, Framed, Of;
    RunTold(start, ops);
    var b := After(start, ops).flow.begun[i];
    assert Submitted(start, ops, b.pkg, b.at, b.seen, b.jumped);
    assert Fair(After(start, ops).flow.begun);
  }

  /** A run in which it happens: a low-priority package finds the connection blocked, a
      high-priority one is submitted, and then the first byte out is of the low one. */
  lemma LowOvertakes(low: Package, high: Package)
    requires low.prio == Low && |low.data| > 1 && high.prio == High
    ensures var ops := [Submission(low, Eagain)] + [Submission(high, Eagain)] + [Writable([Wrote(1)])];
      var s := After(Connected, ops);
      && s.flow.wire == low.data[..1] && s.flow.begun == [Begun(low, true, 1, 0, 0, 2, 1)]
      && s.subHigh == [high] && Packages(s.high.items) == [low, high]
  {
    hide Good, SendStep, BufferStep, Packages;
    var op0, op1, op2 := Submission(low, Eagain), Submission(high, Eagain), Writable([Wrote(1)]);
    assert [] + [op0] == [op0];
    AfterMore(Connected, [], op0);
    AfterMore(Connected, [op0], op1);
    AfterMore(Connected, [op0] + [op1], op2);
    var s1 := Blocked(low);
    Blocks(low);
    Overtaken(low, high);
    Goes(low, high);
  }

  lemma AfterMore(start: Kind, ops: seq<Op>, op: Op)
    requires start == Connecting || start == Connected
    ensures After(start, ops + [op]) == Step(After(start, ops), op)
  {
    hide Good, Step;
    assert (ops + [op])[..|ops|] == ops;
  }

  function Blocked(low: Package): Sock {
    Sock(Connected, WbList([Buffer(0, low, 0, true, 0, 0)], 0), EMPTY, Flow([], [], |low.data|, []), 1, [low], [], [low], 1)
  }

  function Behind(low: Package, high: Package): Sock {
    Sock(Connected, WbList([Buffer(0, low, 0, true, 0, 0), Buffer(1, high, 0, false, 1, 0)], 1), EMPTY,
         Flow([], [], |low.data| + |high.data|, []), 2, [low, high], [high], [low], 2)
  }

  lemma Blocks(low: Package)
    requires low.prio == Low && |low.data| > 1
    ensures Step(Start(Connected), Submission(low, Eagain)) == Blocked(low)
  { }

  lemma Overtaken(low: Package, high: Package)
    requires low.prio == Low && high.prio == High
    ensures Step(Blocked(low), Submission(high, Eagain)) == Behind(low, high)
  {
    var t := Step(Blocked(low), Submission(high, Eagain));
    assert t.high.items == Behind(low, high).high.items;
    assert t.line == [low, high];
  }

  lemma Goes(low: Package, high: Package)
    requires low.prio == Low && |low.data| > 1 && high.prio == High
    ensures var s := Step(Behind(low, high), Writable([Wrote(1)]));
      && s.flow.wire == low.data[..1] && s.flow.begun == [Begun(low, true, 1, 0, 0, 2, 1)]
      && s.subHigh == [high] && Packages(s.high.items) == [low, high]
  {
    hide Waiting;
    var t := Behind(low, high);
    WaitingBehind(t.high.items);
    NoneWaits(t.low.items);
    assert [Wrote(1)][1..] == [];
    assert Retry([Wrote(1)]) == (Wrote(1), []);
  }
}
