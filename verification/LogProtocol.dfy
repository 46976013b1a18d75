/** The log queue: one thread pushes messages as header and body in two separate
    publications, another pops them, with no lock, over the kfifo of module Spsc. */
module LogProtocol {
  import opened Ring
  import opened LogCodec
  import S = Spsc

  datatype Msg = Msg(block: Block, body: seq<Byte>)

  /** What Log() hands to the queue. */
  ghost predicate Legal(m: Msg) {
    && WellFormed(m.block) && m.block.cmd == CMD_LOG
    && m.block.start == TOKEN_START && m.block.end == TOKEN_END
    && m.block.msgLen == |m.body| < MAX_BLOCK
  }

  datatype Push = PushIdle | HeadNext(m: Msg) | HeadCopy(m: Msg) | BodyNext(m: Msg) | BodyCopy(m: Msg)
  datatype Pop = PopIdle | PeekNext | PeekCopy | LengthNext(b: Block) | SkipNext(b: Block)
               | TakeNext(b: Block) | TakeCopy(b: Block) | Corrupted

  /** `accepted` and `popped` record the messages that passed the space test and
      those handed to the caller of the pop. */
  datatype Log = Log(f: S.State<Byte>, push: Push, pop: Pop, accepted: seq<Msg>, popped: seq<Msg>)

  datatype Act =
    | PushTest(m: Msg) | PushHead | PushHeadDone | PushBody | PushBodyDone | PushByte(j: nat)
    | PopTest | PopPeek | PopPeekDone | PopLength | PopSkip | PopTake | PopTakeDone | PopByte(j: nat)

  /** The fifo step an action makes, if it makes one. */
  datatype Effect = NoEffect | Makes(a: S.Act<Byte>)

  function EffectOf(s: Log, a: Act): Effect {
    match a
    case PushHead => if s.push.HeadNext? then Makes(S.WriteStart(Encode(s.push.m.block))) else NoEffect
    case PushBody => if s.push.BodyNext? then Makes(S.WriteStart(s.push.m.body)) else NoEffect
    case PushHeadDone => Makes(S.WritePublish)
    case PushBodyDone => Makes(S.WritePublish)
    case PushByte(j) => Makes(S.WriteOne(j))
    case PopPeek => Makes(S.ReadStart(HEADER))
    case PopPeekDone => Makes(S.PeekEnd)
    case PopSkip => Makes(S.Skip(HEADER))
    case PopTake => if s.pop.TakeNext? then Makes(S.ReadStart(s.pop.b.msgLen)) else NoEffect
    case PopTakeDone => Makes(S.ReadPublish)
    case PopByte(j) => Makes(S.ReadOne(j))
    case _ => NoEffect
  }

  ghost predicate Turn(s: Log, a: Act) {
    match a
    case PushTest(m) => s.push == PushIdle && Legal(m)
    case PushHead => s.push.HeadNext?
    case PushHeadDone => s.push.HeadCopy?
    case PushBody => s.push.BodyNext?
    case PushBodyDone => s.push.BodyCopy?
    case PushByte(_) => s.push.HeadCopy? || s.push.BodyCopy?
    case PopTest => s.pop == PopIdle
    case PopPeek => s.pop == PeekNext
    case PopPeekDone => s.pop == PeekCopy
    case PopLength => s.pop.LengthNext?
    case PopSkip => s.pop.SkipNext?
    case PopTake => s.pop.TakeNext?
    case PopTakeDone => s.pop.TakeCopy?
    case PopByte(_) => s.pop == PeekCopy || s.pop.TakeCopy?
  }

  ghost predicate Ready(s: Log, a: Act) {
    Turn(s, a) && S.Sane(s.f) && (EffectOf(s, a).Makes? ==> S.Ready(s.f, EffectOf(s, a).a))
  }

  /** kfifo_len as the thread sees it at this moment. */
  function Used(f: S.State<Byte>): nat
    requires f.inn < WORD && f.out < WORD
  { Sub32(f.inn, f.out) }

  ghost function NextPush(s: Log, a: Act): Push
    requires Ready(s, a)
  {
    match a
    case PushTest(m) =>
      if |m.body| > 0 && s.f.size - Used(s.f) > |m.body| + HEADER then HeadNext(m) else PushIdle
    case PushHead => HeadCopy(s.push.m)
    case PushHeadDone => BodyNext(s.push.m)
    case PushBody => BodyCopy(s.push.m)
    case PushBodyDone => PushIdle
    case _ => s.push
  }

  ghost function NextPop(s: Log, a: Act): Pop
    requires Ready(s, a)
  {
    match a
    case PopTest => if Used(s.f) < HEADER then PopIdle else PeekNext
    case PopPeek => PeekCopy
    case PopPeekDone =>
      var got := S.Fetched(s.f.r);
      if |got| == HEADER && !Damaged(Decode(got)) then LengthNext(Decode(got)) else Corrupted
    case PopLength => if Used(s.f) < s.pop.b.msgLen + HEADER then PopIdle else SkipNext(s.pop.b)
    case PopSkip => if s.pop.b.cmd == CMD_LOG then TakeNext(s.pop.b) else PopIdle
    case PopTake => TakeCopy(s.pop.b)
    case PopTakeDone => PopIdle
    case _ => s.pop
  }

  ghost function Do(s: Log, a: Act): Log
    requires Ready(s, a)
  {
    var e := EffectOf(s, a);
    Log(if e.Makes? then S.Do(s.f, e.a) else s.f,
        NextPush(s, a), NextPop(s, a),
        if a.PushTest? && NextPush(s, a).HeadNext? then s.accepted + [a.m] else s.accepted,
        if a.PopTakeDone? then s.popped + [Msg(s.pop.b, S.Fetched(s.f.r))] else s.popped)
  }

  // ---- messages as bytes ------------------------------------------------------------

  function Wire(m: Msg): seq<Byte> { Encode(m.block) + m.body }

  function Flat(ms: seq<Msg>): seq<Byte> {
    if ms == [] then [] else Flat(ms[..|ms| - 1]) + Wire(ms[|ms| - 1])
  }

  lemma FlatNext(ms: seq<Msg>, m: Msg)
    ensures Flat(ms + [m]) == Flat(ms) + Wire(m)
  { }

  /** The bytes before message k are those of the first k messages; then it comes whole. */
  lemma {:induction false} FlatAt(ms: seq<Msg>, k: nat)
    requires k < |ms|
    ensures Flat(ms[..k]) + Wire(ms[k]) <= Flat(ms)
  {
    if k == |ms| - 1 {
    } else {
      FlatAt(ms[..|ms| - 1], k);
      assert ms[..|ms| - 1][..k] == ms[..k];
    }
  }

  // ---- invariant ---------------------------------------------------------------------

  /** What an accepted message still has to publish. */
  ghost function Owed(p: Push): seq<Byte> {
    match p
    case PushIdle => []
    case HeadNext(m) => Wire(m)
    case HeadCopy(m) => Wire(m)
    case BodyNext(m) => m.body
    case BodyCopy(m) => m.body
  }

  ghost predicate PushOk(s: Log) {
    && s.f.stream + Owed(s.push) == Flat(s.accepted)
    && |s.f.stream| + |Owed(s.push)| <= |s.f.delivered| + s.f.size
    && (s.push.PushIdle? || Legal(s.push.m))
    && match s.push
       case HeadCopy(m) => s.f.w.Copying? && s.f.w.src == Encode(m.block)
       case BodyCopy(m) => s.f.w.Copying? && s.f.w.src == m.body
       case _ => s.f.w == S.Idle
  }

  /** The header of the message being taken is gone from the fifo already. */
  ghost function HeaderGone(p: Pop): seq<Byte> {
    match p case TakeNext(b) => Encode(b) case TakeCopy(b) => Encode(b) case _ => []
  }

  ghost predicate KnowsBlock(p: Pop) { p.LengthNext? || p.SkipNext? || p.TakeNext? || p.TakeCopy? }

  ghost predicate PopOk(s: Log) {
    && s.pop != Corrupted
    && s.popped <= s.accepted
    && s.f.delivered == Flat(s.popped) + HeaderGone(s.pop)
    && (KnowsBlock(s.pop) ==> |s.popped| < |s.accepted| && s.accepted[|s.popped|].block == s.pop.b)
    && match s.pop
       case PopIdle => s.f.r == S.Waiting
       case PeekNext => s.f.r == S.Waiting && |s.f.stream| >= |s.f.delivered| + HEADER
       case PeekCopy => s.f.r.Fetching? && s.f.r.len == HEADER
       case LengthNext(_) => s.f.r == S.Waiting && |s.f.stream| >= |s.f.delivered| + HEADER
       case SkipNext(b) => s.f.r == S.Waiting && |s.f.stream| >= |s.f.delivered| + HEADER + b.msgLen
       case TakeNext(b) => s.f.r == S.Waiting && |s.f.stream| >= |s.f.delivered| + b.msgLen
       case TakeCopy(b) => s.f.r.Fetching? && s.f.r.len == b.msgLen
       case Corrupted => true
  }

  ghost predicate AllLegal(ms: seq<Msg>) { forall i :: 0 <= i < |ms| ==> Legal(ms[i]) }

  ghost predicate Inv(s: Log) { S.Inv(s.f) && AllLegal(s.accepted) && PushOk(s) && PopOk(s) }

  predicate IsPush(a: Act) {
    a.PushTest? || a.PushHead? || a.PushHeadDone? || a.PushBody? || a.PushBodyDone? || a.PushByte?
  }

  /** The pushing thread leaves the reader's side alone and only adds to the stream. */
  lemma PushLeavesPop(s: Log, a: Act)
    requires Inv(s) && Ready(s, a) && IsPush(a)
    ensures PopOk(Do(s, a))
    ensures Do(s, a).f.delivered == s.f.delivered && Do(s, a).f.size == s.f.size
  {
    hide S.Inv, Legal, Flat, Encode;
    var t := Do(s, a);
    assert s.accepted <= t.accepted && t.f.r == s.f.r && |s.f.stream| <= |t.f.stream|;
  }

  lemma PushTestKeeps(s: Log, a: Act)
    requires Inv(s) && Ready(s, a) && a.PushTest?
    ensures PushOk(Do(s, a)) && AllLegal(Do(s, a).accepted)
  {
    hide S.Inv, PopOk, WellFormed, Encode, Flat;
    S.Lengths(s.f);
    DecodeEncode(a.m.block);
    FlatNext(s.accepted, a.m);
  }

  lemma PushStartKeeps(s: Log, a: Act)
    requires Inv(s) && Ready(s, a) && (a.PushHead? || a.PushBody?)
    ensures PushOk(Do(s, a)) && AllLegal(Do(s, a).accepted)
  {
    hide S.Inv, PopOk, Encode, Flat, AllLegal;
    S.Lengths(s.f);
    DecodeEncode(s.push.m.block);
    hide WellFormed;
  }

  lemma PushDoneKeeps(s: Log, a: Act)
    requires Inv(s) && Ready(s, a) && (a.PushHeadDone? || a.PushBodyDone?)
    ensures PushOk(Do(s, a)) && AllLegal(Do(s, a).accepted)
  {
    hide S.Inv, PopOk, Encode, Flat, AllLegal, Legal;
    var m := s.push.m;
    assert (s.f.stream + Encode(m.block)) + m.body == s.f.stream + (Encode(m.block) + m.body);
  }

  lemma PushByteKeeps(s: Log, a: Act)
    requires Inv(s) && Ready(s, a) && a.PushByte?
    ensures PushOk(Do(s, a)) && AllLegal(Do(s, a).accepted)
  {
    hide S.Inv, PopOk, Encode, Flat, AllLegal, Legal;
  }

  lemma PushStep(s: Log, a: Act)
    requires Inv(s) && Ready(s, a) && IsPush(a)
    ensures PushOk(Do(s, a)) && AllLegal(Do(s, a).accepted)
  {
    hide Inv, PushOk, AllLegal, Do, Ready;
    if a.PushTest? { PushTestKeeps(s, a); }
    else if a.PushHead? || a.PushBody? { PushStartKeeps(s, a); }
    else if a.PushHeadDone? || a.PushBodyDone? { PushDoneKeeps(s, a); }
    else { PushByteKeeps(s, a); }
  }

  /** The popping thread leaves the writer's side alone. */
  lemma PopLeavesPush(s: Log, a: Act)
    requires Inv(s) && Ready(s, a) && !IsPush(a)
    ensures PushOk(Do(s, a)) && Do(s, a).accepted == s.accepted && Do(s, a).f.stream == s.f.stream
  {
    hide S.Inv, PopOk, Encode, Flat, AllLegal, Legal;
    var t := Do(s, a);
    assert t.f.w == s.f.w && |s.f.delivered| <= |t.f.delivered| && t.f.size == s.f.size;
  }

  /** The first message not popped yet, once its header is published. */
  lemma NextMessage(s: Log)
    requires Inv(s) && |s.f.stream| >= |Flat(s.popped)| + HEADER
    ensures |s.popped| < |s.accepted|
    ensures var m, d := s.accepted[|s.popped|], |Flat(s.popped)|;
      && |Encode(m.block)| == HEADER && Decode(Encode(m.block)) == m.block && !Damaged(m.block)
      && m.block.cmd == CMD_LOG && m.block.msgLen == |m.body|
      && s.f.stream[d..d + HEADER] == Encode(m.block)
      && (|s.f.stream| >= d + HEADER + |m.body| ==> s.f.stream[d + HEADER..d + HEADER + |m.body|] == m.body)
  {
    hide S.Inv, Encode, Flat, WellFormed, Decode;
    var k := |s.popped|;
    assert s.popped == s.accepted[..k];
    assert s.f.stream <= Flat(s.accepted);
    assert k == |s.accepted| ==> s.popped == s.accepted;
    var m := s.accepted[k];
    assert Legal(m);
    DecodeEncode(m.block);
    FlatAt(s.accepted, k);
    Slices(Flat(s.popped), Encode(m.block), m.body, Flat(s.accepted), s.f.stream);
  }

  lemma Slices(a: seq<Byte>, h: seq<Byte>, b: seq<Byte>, all: seq<Byte>, part: seq<Byte>)
    requires a + (h + b) <= all && part <= all && |part| >= |a| + |h|
    ensures part[|a|..|a| + |h|] == h
    ensures |part| >= |a| + |h| + |b| ==> part[|a| + |h|..|a| + |h| + |b|] == b
  { }

  /** Tests and starts of the popping thread. */
  lemma PopBeginKeeps(s: Log, a: Act)
    requires Inv(s) && Ready(s, a) && (a.PopTest? || a.PopPeek? || a.PopLength? || a.PopTake? || a.PopByte?)
    ensures PopOk(Do(s, a))
  {
    hide S.Inv, PushOk, Encode, Flat, AllLegal, Legal;
    S.Lengths(s.f);
  }

  lemma PopPeekDoneKeeps(s: Log, a: Act)
    requires Inv(s) && Ready(s, a) && a.PopPeekDone?
    ensures PopOk(Do(s, a))
  {
    hide S.Inv, PushOk, Encode, Flat, AllLegal, Legal, Decode, Damaged, S.Fetched;
    S.FetchedIsStream(s.f);
    NextMessage(s);
  }

  lemma PopSkipKeeps(s: Log, a: Act)
    requires Inv(s) && Ready(s, a) && a.PopSkip?
    ensures PopOk(Do(s, a))
  {
    hide S.Inv, PushOk, Encode, Flat, AllLegal, Legal, Decode, Damaged, S.Unread;
    S.Lengths(s.f);
    S.UnreadIsStream(s.f, HEADER);
    NextMessage(s);
  }

  lemma PopTakeDoneKeeps(s: Log, a: Act)
    requires Inv(s) && Ready(s, a) && a.PopTakeDone?
    ensures PopOk(Do(s, a))
  {
    hide S.Inv, PushOk, Encode, AllLegal, Legal, Decode, Damaged, S.Fetched, Flat;
    S.FetchedIsStream(s.f);
    BlockLength(s);
    NextMessage(s);
    var m := s.accepted[|s.popped|];
    assert S.Fetched(s.f.r) == m.body;
    FlatNext(s.popped, m);
    assert Flat(s.popped) + Encode(m.block) + m.body == Flat(s.popped) + (Encode(m.block) + m.body);
  }

  lemma BlockLength(s: Log)
    requires Inv(s) && KnowsBlock(s.pop)
    ensures |s.popped| < |s.accepted| && |Encode(s.pop.b)| == HEADER
  {
    hide S.Inv, PushOk, Encode, Flat;
    assert Legal(s.accepted[|s.popped|]);
    DecodeEncode(s.pop.b);
  }

  lemma StepKeeps(s: Log, a: Act)
    requires Inv(s) && Ready(s, a)
    ensures Inv(Do(s, a))
  {
    hide S.Inv, PushOk, PopOk, AllLegal, NextPush, NextPop, S.Ready, S.Do;
    if EffectOf(s, a).Makes? { S.StepKeeps(s.f, EffectOf(s, a).a); }
    if IsPush(a) {
      PushLeavesPop(s, a);
      PushStep(s, a);
    } else {
      PopLeavesPush(s, a);
      if a.PopPeekDone? { PopPeekDoneKeeps(s, a); }
      else if a.PopSkip? { PopSkipKeeps(s, a); }
      else if a.PopTakeDone? { PopTakeDoneKeeps(s, a); }
      else { PopBeginKeeps(s, a); }
    }
  }

  /** The unchecked skip of the header is always within the bytes queued. */
  lemma SkipAllowed(s: Log)
    requires Inv(s) && s.pop.SkipNext?
    ensures Ready(s, PopSkip)
  {
    hide PushOk, AllLegal, Flat, Encode;
    S.Lengths(s.f);
  }

  // ---- whole runs ---------------------------------------------------------------------

  ghost predicate Init(s: Log) {
    S.Init(s.f) && s.push == PushIdle && s.pop == PopIdle && s.accepted == s.popped == []
  }

  ghost predicate IsRun(states: seq<Log>, acts: seq<Act>) {
    && |states| == |acts| + 1 && Init(states[0])
    && forall i :: 0 <= i < |acts| ==> Ready(states[i], acts[i]) && states[i + 1] == Do(states[i], acts[i])
  }

  lemma InitInv(s: Log)
    requires Init(s)
    ensures Inv(s)
  { }

  lemma {:induction false} RunInv(states: seq<Log>, acts: seq<Act>, n: nat)
    requires IsRun(states, acts) && n < |states|
    ensures Inv(states[n])
  {
    hide Inv, Do, Ready;
    if n == 0 { InitInv(states[0]); } else {
      RunInv(states, acts, n - 1);
      StepKeeps(states[n - 1], acts[n - 1]);
    }
  }

  /** In every interleaving of one pushing and one popping thread: the messages popped
      are a prefix of those accepted, an accepted message is published whole while a
      refused one leaves no byte, and the reader never finds damaged data. */
  lemma LogSafe(states: seq<Log>, acts: seq<Act>, n: nat)
    requires IsRun(states, acts) && n < |states|
    ensures states[n].popped <= states[n].accepted
    ensures states[n].f.stream + Owed(states[n].push) == Flat(states[n].accepted)
    ensures states[n].pop != Corrupted
    ensures states[n].pop.SkipNext? ==> Ready(states[n], PopSkip)
  {
    RunInv(states, acts, n);
    if states[n].pop.SkipNext? { SkipAllowed(states[n]); }
  }
}
