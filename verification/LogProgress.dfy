/** The log queue gets on: when a message is accepted, when the reader goes on, and that from every
    state the two threads can finish with everything accepted handed out. */
module LogProgress {
  import opened Ring
  import opened LogCodec
  import opened LogProtocol
  import S = Spsc

  // ---- single steps, told by what was published and taken --------------------------------------

  /** Bytes published and not taken yet. */
  ghost function Backlog(s: Log): int { |s.f.stream| - |s.f.delivered| }

  /** A message is accepted if and only if it is not empty and leaves a byte of the fifo free; no other
      step accepts anything. */
  lemma AcceptIff(states: seq<Log>, acts: seq<Act>, n: nat)
    requires IsRun(states, acts) && n < |acts|
    ensures states[n + 1].accepted == states[n].accepted +
      if acts[n].PushTest? && |acts[n].m.body| > 0 && Backlog(states[n]) + HEADER + |acts[n].m.body| < states[n].f.size
      then [acts[n].m] else []
    ensures acts[n].PushTest? ==> (states[n + 1].push == HeadNext(acts[n].m) <==> states[n + 1].accepted != states[n].accepted)
  {
    RunInv(states, acts, n);
    hide PushOk, PopOk, Legal, S.Inv;
    S.Lengths(states[n].f);
  }

  /** The reader looks at a header if and only if one is published, and takes the message if and only
      if it is published whole; it hands out a message exactly when its copy is done. */
  lemma ReadIff(states: seq<Log>, acts: seq<Act>, n: nat)
    requires IsRun(states, acts) && n < |acts|
    ensures acts[n] == PopTest ==> states[n + 1].pop == if Backlog(states[n]) >= HEADER then PeekNext else PopIdle
    ensures acts[n] == PopLength ==> states[n].pop.LengthNext?
    ensures acts[n] == PopLength ==>
      states[n + 1].pop == if Backlog(states[n]) >= HEADER + states[n].pop.b.msgLen then SkipNext(states[n].pop.b) else PopIdle
    ensures |states[n + 1].popped| == |states[n].popped| + if acts[n] == PopTakeDone then 1 else 0
  {
    RunInv(states, acts, n);
    hide PushOk, PopOk, Legal, S.Inv, Encode, Decode, Flat;
    S.Lengths(states[n].f);
  }

  /** What the reader makes of the bytes it has peeked at, whatever they are: it goes on exactly if they are
      let through, and takes nothing yet. */
  lemma PeekVerdict(s: Log)
    requires Ready(s, PopPeekDone)
    ensures var got := S.Fetched(s.f.r);
      && Do(s, PopPeekDone).pop == (if LetThrough(got) then LengthNext(Decode(got)) else Corrupted)
      && Do(s, PopPeekDone).popped == s.popped && Do(s, PopPeekDone).f.delivered == s.f.delivered
  {
    hide S.Fetched, Decode, Damaged, LetThrough;
    var got := S.Fetched(s.f.r);
    if |got| == HEADER { DamagedIff(got); } else { NotThrough(got); }
  }

  lemma NotThrough(s: seq<Byte>)
    requires |s| != HEADER
    ensures !LetThrough(s)
  { }

  /** Of a message with another command only the header is taken: its body stays in front. */
  lemma OtherCommand(s: Log)
    requires S.Inv(s.f) && Ready(s, PopSkip) && s.pop.b.cmd != CMD_LOG
    ensures var t := Do(s, PopSkip);
      && t.pop == PopIdle && t.popped == s.popped && t.f.stream == s.f.stream && Backlog(t) == Backlog(s) - HEADER
  { }

  // ---- finishing ---------------------------------------------------------------------------------

  /** From s the steps lead to t. */
  ghost predicate Leads(s: Log, acts: seq<Act>, t: Log)
    decreases |acts|
  {
    if acts == [] then s == t else Ready(s, acts[0]) && Leads(Do(s, acts[0]), acts[1..], t)
  }

  lemma Nowhere(s: Log)
    ensures Leads(s, [], s)
  { }

  ghost predicate AllPush(acts: seq<Act>) { forall i :: 0 <= i < |acts| ==> IsPush(acts[i]) }
  ghost predicate AllPop(acts: seq<Act>) { forall i :: 0 <= i < |acts| ==> !IsPush(acts[i]) }

  lemma {:induction false} LeadsNext(s: Log, acts: seq<Act>, t: Log, a: Act)
    requires Leads(s, acts, t) && Ready(t, a)
    ensures Leads(s, acts + [a], Do(t, a))
    decreases |acts|
  {
    hide Ready, Do;
    if acts == [] {
      assert Leads(Do(s, a), [], Do(s, a));
      assert (acts + [a])[1..] == [];
    } else {
      assert (acts + [a])[1..] == acts[1..] + [a];
      LeadsNext(Do(s, acts[0]), acts[1..], t, a);
    }
  }

  /** What a step of the pushing thread leaves alone. */
  ghost predicate PushOnly(s: Log, t: Log) {
    t.pop == s.pop && t.popped == s.popped && t.accepted == s.accepted && t.f.delivered == s.f.delivered && t.f.r == s.f.r
  }

  ghost predicate PopOnly(s: Log, t: Log) {
    t.push == s.push && t.accepted == s.accepted && t.f.stream == s.f.stream && t.f.w == s.f.w
  }

  lemma PushAlone(s: Log, a: Act)
    requires Ready(s, a) && IsPush(a) && !a.PushTest?
    ensures PushOnly(s, Do(s, a))
  {
    hide Encode;
  }

  lemma PopAlone(s: Log, a: Act)
    requires Ready(s, a) && !IsPush(a)
    ensures PopOnly(s, Do(s, a))
  {
    hide Encode, Decode;
  }

  /** One more step of the pushing thread. */
  lemma PushMore(s: Log, acts: seq<Act>, t: Log, a: Act) returns (acts': seq<Act>, t': Log)
    requires Leads(s, acts, t) && AllPush(acts) && PushOnly(s, t) && Inv(t) && Ready(t, a) && IsPush(a) && !a.PushTest?
    ensures acts' == acts + [a] && t' == Do(t, a) && Leads(s, acts', t') && AllPush(acts') && PushOnly(s, t') && Inv(t')
  {
    hide Inv, Leads, Do, Ready;
    LeadsNext(s, acts, t, a);
    StepKeeps(t, a);
    PushAlone(t, a);
    acts', t' := acts + [a], Do(t, a);
  }

  lemma PopMore(s: Log, acts: seq<Act>, t: Log, a: Act) returns (acts': seq<Act>, t': Log)
    requires Leads(s, acts, t) && AllPop(acts) && PopOnly(s, t) && Inv(t) && Ready(t, a) && !IsPush(a)
    ensures acts' == acts + [a] && t' == Do(t, a) && Leads(s, acts', t') && AllPop(acts') && PopOnly(s, t') && Inv(t')
  {
    hide Inv, Leads, Do, Ready;
    LeadsNext(s, acts, t, a);
    StepKeeps(t, a);
    PopAlone(t, a);
    acts', t' := acts + [a], Do(t, a);
  }

  ghost predicate Copied(s: Log) { s.f.w.Copying? && forall j :: 0 <= j < |s.f.w.src| ==> j in s.f.w.done }
  ghost predicate Got(s: Log) { s.f.r.Fetching? && forall j :: 0 <= j < s.f.r.len ==> j in s.f.r.got }

  /** A copy into the fifo can be finished. */
  lemma FinishCopy(s: Log, acts: seq<Act>, t: Log) returns (acts': seq<Act>, t': Log)
    requires Leads(s, acts, t) && AllPush(acts) && PushOnly(s, t) && Inv(t) && (t.push.HeadCopy? || t.push.BodyCopy?)
    ensures Leads(s, acts', t') && AllPush(acts') && PushOnly(s, t') && Inv(t') && Copied(t')
    ensures t'.push == t.push && t'.f.stream == t.f.stream
  {
    hide Inv, Leads, Do, Ready;
    acts', t' := acts, t;
    WriterFits(t);
    var n := |t.f.w.src|;
    for k := 0 to n
      invariant Leads(s, acts', t') && AllPush(acts') && PushOnly(s, t') && Inv(t')
      invariant t'.push == t.push && t'.f.stream == t.f.stream && t'.f.size == t.f.size && t'.f.w.Copying? && t'.f.w.src == t.f.w.src
      invariant forall j :: 0 <= j < k ==> j in t'.f.w.done
    {
      if k !in t'.f.w.done {
        ByteReady(t', k);
        acts', t' := PushMore(s, acts', t', PushByte(k));
      }
    }
  }

  lemma WriterFits(s: Log)
    requires Inv(s) && (s.push.HeadCopy? || s.push.BodyCopy?)
    ensures s.f.w.Copying? && |s.f.w.src| <= s.f.size && S.Sane(s.f) && Sub32(s.f.inn, s.f.out) <= s.f.size
  {
    hide PopOk, Legal, Encode, Flat;
    S.Lengths(s.f);
  }

  lemma ByteReady(s: Log, k: nat)
    requires Inv(s) && (s.push.HeadCopy? || s.push.BodyCopy?) && s.f.w.Copying? && k < |s.f.w.src| && k !in s.f.w.done
    ensures Ready(s, PushByte(k))
    ensures var t := Do(s, PushByte(k)); t.push == s.push && t.f.stream == s.f.stream && t.f.size == s.f.size && PushOnly(s, t)
    ensures var t := Do(s, PushByte(k)); t.f.w.Copying? && t.f.w.src == s.f.w.src && t.f.w.done == s.f.w.done + {k}
  {
    hide Inv;
    WriterFits(s);
  }

  lemma CopiedReady(s: Log)
    requires Inv(s) && Copied(s)
    ensures s.push.HeadCopy? ==> Ready(s, PushHeadDone) && Do(s, PushHeadDone).push == BodyNext(s.push.m)
    ensures s.push.BodyCopy? ==> Ready(s, PushBodyDone) && Do(s, PushBodyDone).push == PushIdle
  {
    hide Inv;
    if s.push.HeadCopy? || s.push.BodyCopy? { WriterFits(s); }
  }

  lemma NextReady(s: Log)
    requires Inv(s)
    ensures s.push.HeadNext? ==> Ready(s, PushHead) && Do(s, PushHead).push == HeadCopy(s.push.m)
    ensures s.push.BodyNext? ==> Ready(s, PushBody) && Do(s, PushBody).push == BodyCopy(s.push.m)
  {
    hide PopOk, Legal, Encode, Flat;
    S.Lengths(s.f);
  }

  /** From every state the pushing thread can finish, and then all accepted is published. */
  lemma PushFinishes(s: Log) returns (acts: seq<Act>, t: Log)
    requires Inv(s)
    ensures Leads(s, acts, t) && AllPush(acts) && PushOnly(s, t) && Inv(t) && t.push == PushIdle && t.f.stream == Flat(s.accepted)
  {
    hide Inv, Leads, Do, Ready, Copied;
    acts, t := [], s;
    Nowhere(s);
    if t.push.HeadNext? {
      NextReady(t);
      acts, t := PushMore(s, acts, t, PushHead);
    }
    if t.push.HeadCopy? {
      acts, t := FinishCopy(s, acts, t);
      CopiedReady(t);
      acts, t := PushMore(s, acts, t, PushHeadDone);
    }
    if t.push.BodyNext? {
      NextReady(t);
      acts, t := PushMore(s, acts, t, PushBody);
    }
    if t.push.BodyCopy? {
      acts, t := FinishCopy(s, acts, t);
      CopiedReady(t);
      acts, t := PushMore(s, acts, t, PushBodyDone);
    }
    IdlePublished(t);
  }

  lemma IdlePublished(s: Log)
    requires Inv(s) && s.push == PushIdle
    ensures s.f.stream == Flat(s.accepted)
  {
    hide PopOk, Encode, Flat;
    assert s.f.stream + [] == s.f.stream;
  }

  /** The next message to hand out is published whole. */
  ghost predicate WholeNext(s: Log) {
    |s.popped| < |s.accepted| && |Flat(s.accepted[..|s.popped| + 1])| <= |s.f.stream|
  }

  /** How many bytes that takes, seen from the reader. */
  lemma WholeMeans(s: Log)
    requires Inv(s)
    ensures s.pop == PopIdle && WholeNext(s) ==> Backlog(s) >= HEADER
    ensures s.pop.LengthNext? ==> (WholeNext(s) <==> Backlog(s) >= HEADER + s.pop.b.msgLen)
    ensures s.pop.SkipNext? || s.pop.TakeNext? || s.pop.TakeCopy? ==> WholeNext(s)
    ensures WholeNext(s) ==> s.popped == s.accepted[..|s.popped|]
    ensures s.pop != Corrupted
  {
    hide S.Inv, PushOk, Encode, Flat;
    ReaderFits(s);
    if |s.popped| < |s.accepted| {
      var k := |s.popped|;
      var m := s.accepted[k];
      assert Legal(m);
      assert s.accepted[..k] == s.popped && s.accepted[..k + 1] == s.popped + [m];
      FlatNext(s.popped, m);
      DecodeEncode(m.block);
    }
  }

  lemma ReaderFits(s: Log)
    requires Inv(s)
    ensures S.Sane(s.f) && Sub32(s.f.inn, s.f.out) == Backlog(s) <= s.f.size
    ensures s.f.r.Fetching? ==> s.f.r.len <= Backlog(s) <= s.f.size
  {
    hide PushOk, PopOk, Encode, Flat;
    S.Lengths(s.f);
  }

  /** A copy out of the fifo can be finished. */
  lemma FinishFetch(s: Log, acts: seq<Act>, t: Log) returns (acts': seq<Act>, t': Log)
    requires Leads(s, acts, t) && AllPop(acts) && PopOnly(s, t) && Inv(t) && (t.pop == PeekCopy || t.pop.TakeCopy?)
    ensures Leads(s, acts', t') && AllPop(acts') && PopOnly(s, t') && Inv(t') && Got(t')
    ensures t'.pop == t.pop && t'.popped == t.popped
  {
    hide Inv, Leads, Do, Ready;
    acts', t' := acts, t;
    FetchReady(t, 0);
    var n := t.f.r.len;
    for k := 0 to n
      invariant Leads(s, acts', t') && AllPop(acts') && PopOnly(s, t') && Inv(t')
      invariant t'.pop == t.pop && t'.popped == t.popped && t'.f.r.Fetching? && t'.f.r.len == n
      invariant forall j :: 0 <= j < k ==> j in t'.f.r.got
    {
      if k !in t'.f.r.got {
        FetchReady(t', k);
        acts', t' := PopMore(s, acts', t', PopByte(k));
      }
    }
  }

  lemma FetchReady(s: Log, k: nat)
    requires Inv(s) && (s.pop == PeekCopy || s.pop.TakeCopy?)
    ensures s.f.r.Fetching?
    ensures k < s.f.r.len && k !in s.f.r.got ==> Ready(s, PopByte(k))
    ensures k < s.f.r.len && k !in s.f.r.got ==> var t := Do(s, PopByte(k));
      t.pop == s.pop && t.popped == s.popped && t.f.r.Fetching? && t.f.r.len == s.f.r.len && t.f.r.got.Keys == s.f.r.got.Keys + {k}
  {
    hide S.Inv, PushOk, Encode, Decode, Flat, Legal;
    ReaderFits(s);
  }

  lemma TestReady(s: Log)
    requires Inv(s) && s.pop == PopIdle
    ensures Ready(s, PopTest)
    ensures var t := Do(s, PopTest); t.popped == s.popped && t.pop == if Backlog(s) >= HEADER then PeekNext else PopIdle
  {
    hide Inv;
    ReaderFits(s);
  }

  lemma PeekReady(s: Log)
    requires Inv(s)
    ensures s.pop == PeekNext ==> Ready(s, PopPeek) && Do(s, PopPeek).pop == PeekCopy && Do(s, PopPeek).popped == s.popped
    ensures s.pop == PeekCopy && Got(s) ==> Ready(s, PopPeekDone) && Do(s, PopPeekDone).pop.LengthNext? && Do(s, PopPeekDone).popped == s.popped
  {
    hide S.Inv, PushOk, Encode, Decode, Flat, Legal, Damaged;
    ReaderFits(s);
    if s.pop == PeekCopy && Got(s) { StepKeeps(s, PopPeekDone); }
  }

  lemma LengthReady(s: Log)
    requires Inv(s) && s.pop.LengthNext?
    ensures Ready(s, PopLength)
    ensures var t := Do(s, PopLength);
      t.popped == s.popped && t.pop == if Backlog(s) >= HEADER + s.pop.b.msgLen then SkipNext(s.pop.b) else PopIdle
  {
    hide Inv;
    ReaderFits(s);
  }

  lemma SkipReady(s: Log)
    requires Inv(s) && s.pop.SkipNext?
    ensures Ready(s, PopSkip) && Do(s, PopSkip).pop.TakeNext? && Do(s, PopSkip).popped == s.popped
  {
    hide S.Inv, PushOk, Encode, Decode, Flat, WellFormed, S.Unread;
    SkipAllowed(s);
    assert Legal(s.accepted[|s.popped|]);
  }

  lemma TakeReady(s: Log)
    requires Inv(s)
    ensures s.pop.TakeNext? ==> Ready(s, PopTake) && Do(s, PopTake).pop.TakeCopy? && Do(s, PopTake).popped == s.popped
    ensures s.pop.TakeCopy? && Got(s) ==> Ready(s, PopTakeDone) && Do(s, PopTakeDone).pop == PopIdle && |Do(s, PopTakeDone).popped| == |s.popped| + 1
  {
    hide S.Inv, PushOk, Encode, Flat, Legal;
    ReaderFits(s);
  }

  /** From every state the reader can finish its round; in it, it hands out the next message if and
      only if that is published whole. */
  lemma PopFinishes(s: Log) returns (acts: seq<Act>, t: Log)
    requires Inv(s)
    ensures Leads(s, acts, t) && AllPop(acts) && PopOnly(s, t) && Inv(t) && t.pop == PopIdle
    ensures t.popped == s.popped + if WholeNext(s) then [s.accepted[|s.popped|]] else []
  {
    hide Inv, Leads, Do, Ready, Got, WholeNext;
    acts, t := [], s;
    Nowhere(s);
    WholeMeans(t);
    if t.pop == PopIdle {
      TestReady(t);
      acts, t := PopMore(s, acts, t, PopTest);
    }
    SameWhole(s, t);
    if t.pop == PeekNext {
      PeekReady(t);
      acts, t := PopMore(s, acts, t, PopPeek);
    }
    if t.pop == PeekCopy {
      acts, t := FinishFetch(s, acts, t);
      PeekReady(t);
      acts, t := PopMore(s, acts, t, PopPeekDone);
    }
    SameWhole(s, t);
    WholeMeans(t);
    if t.pop.LengthNext? {
      LengthReady(t);
      acts, t := PopMore(s, acts, t, PopLength);
    }
    acts, t := TakeOut(s, acts, t);
  }

  /** The end of a round, once the length is known. */
  lemma TakeOut(s: Log, acts: seq<Act>, t: Log) returns (acts': seq<Act>, t': Log)
    requires Leads(s, acts, t) && AllPop(acts) && PopOnly(s, t) && Inv(t) && t.popped == s.popped
    requires t.pop == PopIdle || t.pop.SkipNext? || t.pop.TakeNext? || t.pop.TakeCopy?
    requires t.pop == PopIdle <==> !WholeNext(s)
    ensures Leads(s, acts', t') && AllPop(acts') && PopOnly(s, t') && Inv(t') && t'.pop == PopIdle
    ensures t'.popped == s.popped + if WholeNext(s) then [s.accepted[|s.popped|]] else []
  {
    hide Inv, Leads, Do, Ready, Got;
    acts', t' := acts, t;
    if t'.pop.SkipNext? {
      SkipReady(t');
      acts', t' := PopMore(s, acts', t', PopSkip);
    }
    if t'.pop.TakeNext? {
      TakeReady(t');
      acts', t' := PopMore(s, acts', t', PopTake);
    }
    if t'.pop.TakeCopy? {
      acts', t' := FinishFetch(s, acts', t');
      TakeReady(t');
      acts', t' := PopMore(s, acts', t', PopTakeDone);
      PoppedPrefix(t');
      PoppedPrefix(t);
    }
  }

  lemma PoppedPrefix(s: Log)
    requires Inv(s)
    ensures s.popped <= s.accepted
  { }

  lemma SameWhole(s: Log, t: Log)
    requires PopOnly(s, t) && t.popped == s.popped
    ensures WholeNext(t) <==> WholeNext(s)
  { }

  /** From every state the pushing thread can finish and the reader can then hand out everything. */
  lemma AllHandedOut(s: Log) returns (pushes: seq<Act>, u: Log, pops: seq<Act>, t: Log)
    requires Inv(s)
    ensures Leads(s, pushes, u) && AllPush(pushes) && Leads(u, pops, t) && AllPop(pops)
    ensures Inv(t) && t.push == PushIdle && t.pop == PopIdle && t.accepted == s.accepted && t.popped == s.accepted
  {
    hide Inv, Leads, WholeNext, Flat;
    pushes, u := PushFinishes(s);
    pops, t := Drains(u);
  }

  lemma {:induction false} Drains(s: Log) returns (acts: seq<Act>, t: Log)
    requires Inv(s) && s.push == PushIdle && s.f.stream == Flat(s.accepted)
    ensures Leads(s, acts, t) && AllPop(acts) && PopOnly(s, t) && Inv(t) && t.pop == PopIdle && t.popped == s.accepted
    decreases |s.accepted| - |s.popped|
  {
    hide Inv, Leads, WholeNext, Flat;
    PoppedPrefix(s);
    acts, t := PopFinishes(s);
    if |s.popped| < |s.accepted| {
      AllPublished(s);
      var more;
      var u := t;
      more, t := Drains(u);
      LeadsJoin(s, acts, u, more, t);
      acts := acts + more;
    } else {
      NoneNext(s);
      assert s.popped == s.accepted;
    }
  }

  lemma NoneNext(s: Log)
    requires |s.popped| >= |s.accepted|
    ensures !WholeNext(s)
  { }

  lemma AllPublished(s: Log)
    requires s.f.stream == Flat(s.accepted) && |s.popped| < |s.accepted|
    ensures WholeNext(s)
  {
    FlatShorter(s.accepted, |s.popped| + 1);
  }

  lemma {:induction false} FlatShorter(ms: seq<Msg>, k: nat)
    requires k <= |ms|
    ensures |Flat(ms[..k])| <= |Flat(ms)|
    decreases |ms|
  {
    if k == |ms| {
      assert ms[..k] == ms;
    } else {
      assert ms[..|ms| - 1][..k] == ms[..k];
      FlatShorter(ms[..|ms| - 1], k);
    }
  }

  lemma {:induction false} LeadsJoin(s: Log, a: seq<Act>, t: Log, b: seq<Act>, u: Log)
    requires Leads(s, a, t) && Leads(t, b, u)
    ensures Leads(s, a + b, u)
    decreases |a|
  {
    hide Ready, Do;
    if a == [] {
      assert a + b == b;
    } else {
      assert (a + b)[0] == a[0] && (a + b)[1..] == a[1..] + b;
      LeadsJoin(Do(s, a[0]), a[1..], t, b, u);
    }
  }
}
