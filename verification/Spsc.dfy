/** One writer and one reader on a kfifo without a lock, as interleaved small steps:
    reading the other side's counter, copying one element, publishing the own counter.
    Elements of one copy move in any order; their type is a parameter. */
module Spsc {
  import opened Ring
  import opened KFifos

  datatype Writer<T> = Idle | Copying(src: seq<T>, done: set<nat>)
  datatype Reader<T> = Waiting | Fetching(len: nat, got: map<nat, T>)

  /** `stream` is everything published so far and `delivered` everything taken out. */
  datatype State<T> = State(size: nat, inn: nat, out: nat, mem: seq<T>, w: Writer<T>, r: Reader<T>,
                         stream: seq<T>, delivered: seq<T>)

  datatype Act<T> =
    | WriteStart(buf: seq<T>)
    | WriteOne(j: nat)
    | WritePublish
    | ReadStart(n: nat)
    | ReadOne(j: nat)
    | ReadPublish
    | PeekEnd
    | Skip(n: nat)

  function Slot(c: nat, j: nat, size: nat): int
    requires size > 0
  { Step(c % size, j, size) }

  ghost predicate Sane<T>(s: State<T>) {
    0 < s.size < WORD && DividesWord(s.size) && |s.mem| == s.size && s.inn < WORD && s.out < WORD
  }

  ghost predicate Ready<T>(s: State<T>, a: Act<T>) {
    Sane(s) && Sub32(s.inn, s.out) <= s.size &&
    match a
    case WriteStart(_) => s.w == Idle
    case WriteOne(j) => s.w.Copying? && j < |s.w.src| <= s.size && j !in s.w.done
    case WritePublish => s.w.Copying? && |s.w.src| <= s.size && forall j :: 0 <= j < |s.w.src| ==> j in s.w.done
    case ReadStart(_) => s.r == Waiting
    case ReadOne(j) => s.r.Fetching? && j < s.r.len <= s.size && j !in s.r.got
    case ReadPublish => s.r.Fetching? && s.r.len <= s.size && forall j :: 0 <= j < s.r.len ==> j in s.r.got
    case PeekEnd => s.r.Fetching? && s.r.len <= s.size && forall j :: 0 <= j < s.r.len ==> j in s.r.got
    // kfifo_skip_n is unchecked: the caller has seen that n elements are there
    case Skip(n) => s.r == Waiting && n <= Sub32(s.inn, s.out)
  }

  /** The elements a finished copy put into the reader's buffer. */
  ghost function Fetched<T>(r: Reader<T>): (b: seq<T>)
    requires r.Fetching? && forall j :: 0 <= j < r.len ==> j in r.got
  {
    seq(r.len, j requires 0 <= j < r.len => r.got[j])
  }

  ghost function Do<T>(s: State<T>, a: Act<T>): State<T>
    requires Ready(s, a)
  {
    match a
    case WriteStart(buf) =>
      var l := s.size - Sub32(s.inn, s.out);
      s.(w := Copying(if |buf| > l then buf[..l] else buf, {}))
    case WriteOne(j) =>
      SlotBound(s.inn, j, s.size);
      s.(mem := s.mem[Slot(s.inn, j, s.size) := s.w.src[j]], w := s.w.(done := s.w.done + {j}))
    case WritePublish =>
      s.(inn := Add32(s.inn, |s.w.src|), w := Idle, stream := s.stream + s.w.src)
    case ReadStart(n) =>
      var l := Sub32(s.inn, s.out);
      s.(r := Fetching(if n > l then l else n, map[]))
    case ReadOne(j) =>
      SlotBound(s.out, j, s.size);
      s.(r := s.r.(got := s.r.got[j := s.mem[Slot(s.out, j, s.size)]]))
    case ReadPublish =>
      s.(out := Add32(s.out, s.r.len), r := Waiting, delivered := s.delivered + Fetched(s.r))
    case PeekEnd => s.(r := Waiting)
    case Skip(n) =>
      s.(out := Add32(s.out, n), delivered := s.delivered + Unread(s, n))
  }

  lemma SlotBound(c: nat, j: nat, size: nat)
    requires 0 < size && j < size
    ensures 0 <= Slot(c, j, size) < size
  { }

  /** The next n elements as they stand in the buffer. */
  ghost function Unread<T>(s: State<T>, n: nat): (b: seq<T>)
    requires Sane(s) && n <= s.size
    ensures |b| == n
  {
    seq(n, j requires 0 <= j < n => SlotBound(s.out, j, s.size); s.mem[Slot(s.out, j, s.size)])
  }

  // ---- invariant ----------------------------------------------------------------

  /** A 32-bit counter after x increments. */
  ghost function Wrapped(x: nat): nat { x % WORD }

  /** The place of element number i of the stream. */
  ghost function Cell(i: nat, size: nat): (c: nat)
    requires size > 0
    ensures c < size
  { i % size }

  lemma CellsDiffer(i: nat, j: nat, size: nat)
    requires size > 0 && i < j < i + size
    ensures Cell(i, size) != Cell(j, size)
  {
    var q, r := i / size, i % size;
    assert i == q * size + r;
    if r + (j - i) < size { DivUnique(j, size, q, r + (j - i)); }
    else {
      assert j == (q + 1) * size + (r + (j - i) - size);
      DivUnique(j, size, q + 1, r + (j - i) - size);
    }
  }

  /** Masking the wrapped counter finds the cell of the unwrapped one. */
  lemma SlotIsCell(x: nat, j: nat, size: nat)
    requires 0 < size < WORD && DividesWord(size) && j < size
    ensures Slot(Wrapped(x), j, size) == Cell(x + j, size)
  {
    var c := Wrapped(x);
    var p := WORD / size;
    assert WORD == p * size;
    var k := x / WORD;
    assert x == c + k * WORD;
    assert k * WORD == (k * p) * size;
    ModMultiple(c, size, k * p);
    assert x % size == c % size;
    var q, r := x / size, x % size;
    assert x == q * size + r;
    if r + j < size { DivUnique(x + j, size, q, r + j); }
    else {
      assert x + j == (q + 1) * size + (r + j - size);
      DivUnique(x + j, size, q + 1, r + j - size);
    }
  }

  lemma CounterDistance(a: nat, b: nat)
    requires b <= a < b + WORD
    ensures Wrapped(a) < WORD && Wrapped(b) < WORD && Sub32(Wrapped(a), Wrapped(b)) == a - b
  { }

  lemma CounterAdvance(a: nat, n: nat)
    requires n < WORD
    ensures Wrapped(a) < WORD && Add32(Wrapped(a), n) == Wrapped(a + n)
  { }

  ghost predicate Queued<T>(s: State<T>)
    requires s.size > 0 && |s.mem| == s.size
  {
    forall i :: |s.delivered| <= i < |s.stream| ==> s.mem[Cell(i, s.size)] == s.stream[i]
  }

  ghost predicate WriterOk<T>(s: State<T>)
    requires s.size > 0 && |s.mem| == s.size
  {
    s.w.Copying? ==>
      && |s.stream| + |s.w.src| <= |s.delivered| + s.size
      && (forall j :: j in s.w.done ==> 0 <= j < |s.w.src|)
      && forall j :: j in s.w.done ==> s.mem[Cell(|s.stream| + j, s.size)] == s.w.src[j]
  }

  ghost predicate ReaderOk<T>(s: State<T>) {
    s.r.Fetching? ==>
      && |s.delivered| + s.r.len <= |s.stream|
      && (forall j :: j in s.r.got ==> 0 <= j < s.r.len)
      && forall j :: j in s.r.got ==> s.r.got[j] == s.stream[|s.delivered| + j]
  }

  ghost predicate Counters<T>(s: State<T>) {
    && |s.delivered| <= |s.stream| <= |s.delivered| + s.size
    && s.inn == Wrapped(|s.stream|) && s.out == Wrapped(|s.delivered|)
  }

  ghost predicate Inv<T>(s: State<T>) {
    && 0 < s.size < WORD && DividesWord(s.size) && |s.mem| == s.size
    && Counters(s)
    && s.delivered == s.stream[..|s.delivered|]
    && Queued(s) && WriterOk(s) && ReaderOk(s)
  }

  lemma Lengths<T>(s: State<T>)
    requires Inv(s)
    ensures Sane(s) && Sub32(s.inn, s.out) == |s.stream| - |s.delivered|
  {
    CounterDistance(|s.stream|, |s.delivered|);
  }

  // ---- the steps keep it ----------------------------------------------------------

  lemma WriteOneKeeps<T>(s: State<T>, j: nat)
    requires Inv(s) && Ready(s, WriteOne(j))
    ensures Inv(Do(s, WriteOne(j)))
  {
    hide Cell, Wrapped, DividesWord, Slot;
    SlotIsCell(|s.stream|, j, s.size);
    var t := Do(s, WriteOne(j));
    forall i | |s.delivered| <= i < |s.stream| ensures t.mem[Cell(i, s.size)] == s.stream[i] {
      CellsDiffer(i, |s.stream| + j, s.size);
    }
    forall k | k in t.w.done ensures t.mem[Cell(|s.stream| + k, s.size)] == t.w.src[k] {
      if k < j { CellsDiffer(|s.stream| + k, |s.stream| + j, s.size); }
      else if j < k { CellsDiffer(|s.stream| + j, |s.stream| + k, s.size); }
    }
  }

  lemma WritePublishKeeps<T>(s: State<T>)
    requires Inv(s) && Ready(s, WritePublish)
    ensures Inv(Do(s, WritePublish))
  {
    hide Cell, Wrapped, DividesWord, Slot;
    CounterAdvance(|s.stream|, |s.w.src|);
    var t := Do(s, WritePublish);
    forall i | |t.delivered| <= i < |t.stream| ensures t.mem[Cell(i, s.size)] == t.stream[i] {
      if i >= |s.stream| { assert i - |s.stream| in s.w.done; }
    }
  }

  lemma ReadOneKeeps<T>(s: State<T>, j: nat)
    requires Inv(s) && Ready(s, ReadOne(j))
    ensures Inv(Do(s, ReadOne(j)))
  {
    hide Cell, Wrapped, DividesWord, Slot;
    SlotIsCell(|s.delivered|, j, s.size);
  }

  /** A finished copy holds the oldest elements not taken yet. */
  lemma FetchedIsStream<T>(s: State<T>)
    requires Inv(s) && s.r.Fetching? && forall j :: 0 <= j < s.r.len ==> j in s.r.got
    ensures |s.delivered| + s.r.len <= |s.stream|
    ensures Fetched(s.r) == s.stream[|s.delivered|..|s.delivered| + s.r.len]
  { }

  lemma ReadPublishKeeps<T>(s: State<T>)
    requires Inv(s) && Ready(s, ReadPublish)
    ensures Inv(Do(s, ReadPublish))
  {
    hide Cell, Wrapped, DividesWord, Slot;
    FetchedIsStream(s);
    CounterAdvance(|s.delivered|, s.r.len);
  }

  /** Elements skipped are the elements published there. */
  lemma UnreadIsStream<T>(s: State<T>, n: nat)
    requires Inv(s) && Sane(s) && |s.delivered| + n <= |s.stream|
    ensures Unread(s, n) == s.stream[|s.delivered|..|s.delivered| + n]
  {
    hide Cell, Wrapped, DividesWord, Slot;
    forall j | 0 <= j < n ensures Unread(s, n)[j] == s.stream[|s.delivered| + j] {
      SlotIsCell(|s.delivered|, j, s.size);
    }
  }

  lemma SkipKeeps<T>(s: State<T>, n: nat)
    requires Inv(s) && Ready(s, Skip(n))
    ensures Inv(Do(s, Skip(n)))
  {
    hide Cell, Wrapped, DividesWord, Slot, Unread;
    Lengths(s);
    UnreadIsStream(s, n);
    CounterAdvance(|s.delivered|, n);
  }

  lemma StepKeeps<T>(s: State<T>, a: Act<T>)
    requires Inv(s) && Ready(s, a)
    ensures Inv(Do(s, a))
  {
    match a
    case WriteStart(buf) => Lengths(s);
    case WriteOne(j) => WriteOneKeeps(s, j);
    case WritePublish => WritePublishKeeps(s);
    case ReadStart(n) => Lengths(s);
    case ReadOne(j) => ReadOneKeeps(s, j);
    case ReadPublish => ReadPublishKeeps(s);
    case PeekEnd =>
    case Skip(n) => SkipKeeps(s, n);
  }

  // ---- whole runs -------------------------------------------------------------------

  ghost predicate Init<T>(s: State<T>) {
    && 0 < s.size < WORD && DividesWord(s.size) && |s.mem| == s.size
    && s.inn == s.out == 0 && s.w == Idle && s.r == Waiting && s.stream == s.delivered == []
  }

  ghost predicate IsRun<T>(states: seq<State<T>>, acts: seq<Act<T>>) {
    && |states| == |acts| + 1 && Init(states[0])
    && forall i :: 0 <= i < |acts| ==> Ready(states[i], acts[i]) && states[i + 1] == Do(states[i], acts[i])
  }

  lemma {:induction false} RunInv<T>(states: seq<State<T>>, acts: seq<Act<T>>, n: nat)
    requires IsRun(states, acts) && n < |states|
    ensures Inv(states[n])
  {
    hide Inv, Do, Ready;
    if n == 0 { InitInv(states[0]); } else {
      RunInv(states, acts, n - 1);
      StepKeeps(states[n - 1], acts[n - 1]);
    }
  }

  lemma InitInv<T>(s: State<T>)
    requires Init(s)
    ensures Inv(s)
  { }

  /** No place is read while it is being written. */
  lemma NoRace<T>(s: State<T>, j: nat, k: nat)
    requires Inv(s) && s.w.Copying? && s.r.Fetching? && j < |s.w.src| && k < s.r.len
    ensures Slot(s.inn, j, s.size) != Slot(s.out, k, s.size)
  {
    SlotIsCell(|s.stream|, j, s.size);
    SlotIsCell(|s.delivered|, k, s.size);
    CellsDiffer(|s.delivered| + k, |s.stream| + j, s.size);
  }

  ghost predicate NothingReadWhileWritten<T>(s: State<T>) {
    s.size > 0 && (s.w.Copying? && s.r.Fetching? ==>
      forall j, k :: 0 <= j < |s.w.src| && 0 <= k < s.r.len ==> Slot(s.inn, j, s.size) != Slot(s.out, k, s.size))
  }

  /** In every interleaving: what was taken out is a prefix of what was put in, in
      order, and no place is read while it is being written. */
  lemma SpscSafe<T>(states: seq<State<T>>, acts: seq<Act<T>>, n: nat)
    requires IsRun(states, acts) && n < |states|
    ensures states[n].delivered <= states[n].stream
    ensures |states[n].stream| - |states[n].delivered| <= states[n].size
    ensures NothingReadWhileWritten(states[n])
  {
    RunInv(states, acts, n);
    var s := states[n];
    if s.w.Copying? && s.r.Fetching? {
      forall j, k | 0 <= j < |s.w.src| && 0 <= k < s.r.len
        ensures Slot(s.inn, j, s.size) != Slot(s.out, k, s.size)
      {
        NoRace(s, j, k);
      }
    }
  }

  /** How much each step puts in or takes out: a write takes as much as is free when it begins, a read
      as much as is there, and nothing else changes what was put in or taken. */
  lemma Amounts<T>(states: seq<State<T>>, acts: seq<Act<T>>, n: nat)
    requires IsRun(states, acts) && n < |acts|
    ensures var s, t := states[n], states[n + 1];
      var used := |s.stream| - |s.delivered|;
      && 0 <= used <= s.size
      && (match acts[n]
          case WriteStart(buf) => t.w == Copying(buf[..if |buf| <= s.size - used then |buf| else s.size - used], {})
          case ReadStart(k) => t.r == Fetching(if k <= used then k else used, map[])
          case _ => true)
      && t.stream == s.stream + (if acts[n].WritePublish? && s.w.Copying? then s.w.src else [])
      && |t.delivered| == |s.delivered| + (match acts[n]
          case ReadPublish => if s.r.Fetching? then s.r.len else 0
          case Skip(k) => k
          case _ => 0)
  {
    RunInv(states, acts, n);
    hide Queued, WriterOk, ReaderOk;
    Lengths(states[n]);
    var s := states[n];
    assert s.stream + [] == s.stream;
    match acts[n]
    case WriteStart(buf) => assert buf[..|buf|] == buf;
    case _ =>
  }
}
