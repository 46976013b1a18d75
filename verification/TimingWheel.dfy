/** The hierarchical timing wheel of the game timer. */
module TimingWheel {
  import opened WheelSlots
  import opened FlatTimers

  datatype Node = Node(expire: Tick32, event: Event)

  ghost function Nodes(p: seq<Entry>): (r: seq<Node>)
    ensures |r| == |p|
    ensures forall i :: 0 <= i < |p| ==> r[i] == Node(Wrap(p[i].deadline), p[i].event)
  {
    seq(|p|, i requires 0 <= i < |p| => Node(Wrap(p[i].deadline), p[i].event))
  }

  /** The nodes that placement `f` puts into list `s`, in order. */
  ghost function Pick(nodes: seq<Node>, f: int -> Slot, s: Slot): seq<Node> {
    if nodes == [] then [] else
      var x := nodes[|nodes| - 1];
      var rest := Pick(nodes[..|nodes| - 1], f, s);
      if f(x.expire) == s then rest + [x] else rest
  }

  /** The canonical placement at clock `t`. */
  ghost function Placement(t: int): int -> Slot { e => SlotOf(e, t) }

  function Events(nodes: seq<Node>): (r: seq<Event>)
    ensures |r| == |nodes|
  {
    if nodes == [] then [] else Events(nodes[..|nodes| - 1]) + [nodes[|nodes| - 1].event]
  }

  /** Every pending deadline lies in [now + low, now + 2^31). */
  ghost predicate InWindow(p: seq<Entry>, now: nat, low: nat) {
    forall i :: 0 <= i < |p| ==> now + low <= p[i].deadline < now + HALF
  }

  lemma PickAppend(nodes: seq<Node>, x: Node, f: int -> Slot, s: Slot)
    ensures Pick(nodes + [x], f, s) == if f(x.expire) == s then Pick(nodes, f, s) + [x] else Pick(nodes, f, s)
  { }

  // ---- a tick moves exactly the cascading list ---------------------------

  /** Placement `g` differs from `f` only on list `c`, whose nodes drop below every
      list that is in use. */
  ghost predicate Drops(nodes: seq<Node>, f: int -> Slot, g: int -> Slot, c: Slot) {
    forall i :: 0 <= i < |nodes| ==>
      var e := nodes[i].expire;
      SlotRank(f(e)) >= SlotRank(c) && if f(e) == c then SlotRank(g(e)) < SlotRank(c) else g(e) == f(e)
  }

  lemma {:induction false} BelowIsEmpty(nodes: seq<Node>, f: int -> Slot, g: int -> Slot, c: Slot, s: Slot)
    requires Drops(nodes, f, g, c) && SlotRank(s) < SlotRank(c)
    ensures Pick(nodes, f, s) == []
  {
    if nodes != [] { BelowIsEmpty(nodes[..|nodes| - 1], f, g, c, s); }
  }

  lemma {:induction false} LandsBelow(nodes: seq<Node>, f: int -> Slot, g: int -> Slot, c: Slot, s: Slot)
    requires Drops(nodes, f, g, c) && SlotRank(s) >= SlotRank(c)
    ensures Pick(Pick(nodes, f, c), g, s) == []
  {
    if nodes != [] {
      LandsBelow(nodes[..|nodes| - 1], f, g, c, s);
      PickAppend(Pick(nodes[..|nodes| - 1], f, c), nodes[|nodes| - 1], g, s);
    }
  }

  /** Redistributing list `c` alone turns placement `f` into placement `g`, order included. */
  lemma Redistribute(nodes: seq<Node>, f: int -> Slot, g: int -> Slot, c: Slot, s: Slot)
    requires Drops(nodes, f, g, c)
    ensures Pick(nodes, g, s) == (if s == c then [] else Pick(nodes, f, s)) + Pick(Pick(nodes, f, c), g, s)
  {
    if SlotRank(s) < SlotRank(c) {
      BelowIsEmpty(nodes, f, g, c, s);
      RedistributeBelow(nodes, f, g, c, s);
    } else {
      LandsBelow(nodes, f, g, c, s);
      RedistributeAbove(nodes, f, g, c, s);
    }
  }

  lemma {:induction false} RedistributeBelow(nodes: seq<Node>, f: int -> Slot, g: int -> Slot, c: Slot, s: Slot)
    requires Drops(nodes, f, g, c) && SlotRank(s) < SlotRank(c)
    ensures Pick(nodes, g, s) == Pick(Pick(nodes, f, c), g, s)
  {
    if nodes != [] {
      var q, x := nodes[..|nodes| - 1], nodes[|nodes| - 1];
      RedistributeBelow(q, f, g, c, s);
      PickAppend(Pick(q, f, c), x, g, s);
    }
  }

  lemma {:induction false} RedistributeAbove(nodes: seq<Node>, f: int -> Slot, g: int -> Slot, c: Slot, s: Slot)
    requires Drops(nodes, f, g, c) && SlotRank(s) >= SlotRank(c)
    ensures Pick(nodes, g, s) == if s == c then [] else Pick(nodes, f, s)
  {
    if nodes != [] { RedistributeAbove(nodes[..|nodes| - 1], f, g, c, s); }
  }

  lemma {:induction false} SamePlacement(nodes: seq<Node>, f: int -> Slot, g: int -> Slot, s: Slot)
    requires forall i :: 0 <= i < |nodes| ==> f(nodes[i].expire) == g(nodes[i].expire)
    ensures Pick(nodes, f, s) == Pick(nodes, g, s)
  {
    if nodes != [] { SamePlacement(nodes[..|nodes| - 1], f, g, s); }
  }

  /** One pending timer when the clock ticks. */
  lemma TickOne(now: nat, deadline: nat)
    requires now < deadline < now + HALF
    ensures var e, t, ct := Wrap(deadline), Wrap(now), Wrap(now + 1);
      && RankOf(e, t) >= Carry(ct)
      && if Cascades(SlotOf(e, t), ct) then RankOf(e, ct) < RankOf(e, t) else SlotOf(e, ct) == SlotOf(e, t)
  {
    WrapAhead(now, deadline); WrapAdd(now, 1);
    ShiftSlot(Wrap(deadline), Wrap(now));
  }

  lemma TickDrops(p: seq<Entry>, now: nat, c: Slot)
    requires InWindow(p, now, 1) && Cascades(c, Wrap(now + 1))
    ensures Drops(Nodes(p), Placement(Wrap(now)), Placement(Wrap(now + 1)), c)
  {
    forall i | 0 <= i < |p|
      ensures var e, f, g := Nodes(p)[i].expire, Placement(Wrap(now)), Placement(Wrap(now + 1));
        SlotRank(f(e)) >= SlotRank(c) && if f(e) == c then SlotRank(g(e)) < SlotRank(c) else g(e) == f(e)
    {
      TickOne(now, p[i].deadline);
    }
  }

  lemma TickStays(p: seq<Entry>, now: nat, s: Slot)
    requires InWindow(p, now, 1) && Carry(Wrap(now + 1)) == 0
    ensures Pick(Nodes(p), Placement(Wrap(now + 1)), s) == Pick(Nodes(p), Placement(Wrap(now)), s)
  {
    var f, g := Placement(Wrap(now)), Placement(Wrap(now + 1));
    forall i | 0 <= i < |p|
      ensures f(Nodes(p)[i].expire) == g(Nodes(p)[i].expire)
    {
      TickOne(now, p[i].deadline);
    }
    SamePlacement(Nodes(p), f, g, s);
  }

  // ---- the list under the clock -----------------------------------------

  ghost predicate IsDueList(p: seq<Entry>, now: nat, f: int -> Slot, d: Slot) {
    forall i :: 0 <= i < |p| ==> now <= p[i].deadline && (f(Wrap(p[i].deadline)) == d <==> p[i].deadline == now)
  }

  lemma NodesInit(p: seq<Entry>)
    requires p != []
    ensures Nodes(p)[..|p| - 1] == Nodes(p[..|p| - 1])
  { }

  lemma {:induction false} DueList(p: seq<Entry>, now: nat, f: int -> Slot, d: Slot)
    requires IsDueList(p, now, f, d)
    ensures Events(Pick(Nodes(p), f, d)) == Due(p, now)
  {
    if p != [] {
      DueList(p[..|p| - 1], now, f, d);
      NodesInit(p);
      var nodes := Pick(Nodes(p[..|p| - 1]), f, d);
      assert (nodes + [Nodes(p)[|p| - 1]])[..|nodes|] == nodes;
    }
  }

  lemma NodesAppend(p: seq<Entry>, x: Entry)
    ensures Nodes(p + [x]) == Nodes(p) + [Node(Wrap(x.deadline), x.event)]
  { }

  /** Dropping the due timers empties that list and no other. */
  lemma {:induction false} DropDue(p: seq<Entry>, now: nat, f: int -> Slot, d: Slot, s: Slot)
    requires IsDueList(p, now, f, d)
    ensures Pick(Nodes(After(p, now)), f, s) == if s == d then [] else Pick(Nodes(p), f, s)
  {
    if p != [] {
      var q, x := p[..|p| - 1], p[|p| - 1];
      DropDue(q, now, f, d, s);
      NodesInit(p);
      NodesAppend(After(q, now), x);
      PickAppend(Nodes(After(q, now)), Nodes(p)[|p| - 1], f, s);
    }
  }

  lemma {:induction false} AfterWindow(p: seq<Entry>, now: nat)
    requires InWindow(p, now, 0)
    ensures InWindow(After(p, now), now, 1)
  {
    if p != [] { AfterWindow(p[..|p| - 1], now); }
  }

  lemma NowIsDueList(p: seq<Entry>, now: nat)
    requires InWindow(p, now, 0)
    ensures IsDueList(p, now, Placement(Wrap(now)), Near(Wrap(now) % 0x100))
  {
    forall i | 0 <= i < |p|
      ensures Placement(Wrap(now))(Wrap(p[i].deadline)) == Near(Wrap(now) % 0x100) <==> p[i].deadline == now
    {
      DueSlot(Wrap(p[i].deadline), Wrap(now));
      WrapSame(now, p[i].deadline);
    }
  }

  /** x | (size - 1) on 32-bit values, for a power of two `size`. */
  function OrLow(x: int, size: int): int
    requires size > 0
  { x - x % size + (size - 1) }

  lemma OrLowSame(x: int, y: int, l: int)
    requires 0 <= x && 0 <= y
    ensures OrLow(x, Span(l)) == OrLow(y, Span(l)) <==> Same(x, y, l)
  { }

  // ---- the whole board ----------------------------------------------------

  /** All lists of the wheel; the four levels of 64 lists lie one after the other. */
  datatype Board = Board(near: seq<seq<Node>>, levels: seq<seq<Node>>)

  ghost predicate Full(b: Board) { |b.near| == 256 && |b.levels| == 256 }

  ghost function Get(b: Board, s: Slot): seq<Node>
    requires Full(b) && ValidSlot(s)
  {
    match s case Near(i) => b.near[i] case Level(l, i) => b.levels[l * 64 + i]
  }

  ghost function Set(b: Board, s: Slot, v: seq<Node>): (r: Board)
    requires Full(b) && ValidSlot(s)
    ensures Full(r)
  {
    match s
    case Near(i) => b.(near := b.near[i := v])
    case Level(l, i) => b.(levels := b.levels[l * 64 + i := v])
  }

  lemma GetSet(b: Board, s: Slot, v: seq<Node>, s': Slot)
    requires Full(b) && ValidSlot(s) && ValidSlot(s')
    ensures Get(Set(b, s, v), s') == if s' == s then v else Get(b, s')
  { }

  lemma SameBoard(a: Board, b: Board)
    requires Full(a) && Full(b)
    requires forall s :: ValidSlot(s) ==> Get(a, s) == Get(b, s)
    ensures a == b
  {
    forall i | 0 <= i < 256 ensures a.near[i] == b.near[i] {
      assert Get(a, Near(i)) == Get(b, Near(i));
    }
    forall j | 0 <= j < 256 ensures a.levels[j] == b.levels[j] {
      assert Get(a, Level(j / 64, j % 64)) == Get(b, Level(j / 64, j % 64));
    }
  }

  ghost function Empty(): (b: Board)
    ensures Full(b)
  {
    Board(seq(256, _ => []), seq(256, _ => []))
  }

  /** `node` appended to its canonical list at clock `t`. */
  ghost function Put(b: Board, node: Node, t: int): (r: Board)
    requires Full(b)
    ensures Full(r)
  {
    var s := SlotOf(node.expire, t);
    Set(b, s, Get(b, s) + [node])
  }

  /** `nodes` placed one after the other at clock `t`. */
  ghost function PutAll(b: Board, nodes: seq<Node>, t: int): (r: Board)
    requires Full(b)
    ensures Full(r)
  {
    if nodes == [] then b else Put(PutAll(b, nodes[..|nodes| - 1], t), nodes[|nodes| - 1], t)
  }

  /** The board as if every pending timer were added anew at clock `t`. */
  ghost function Canon(p: seq<Entry>, t: int): (b: Board)
    ensures Full(b)
  {
    PutAll(Empty(), Nodes(p), t)
  }

  lemma PutAllNext(b: Board, nodes: seq<Node>, x: Node, t: int)
    requires Full(b)
    ensures PutAll(b, nodes + [x], t) == Put(PutAll(b, nodes, t), x, t)
  { }

  /** A list of the board: its old nodes, then those of `nodes` that belong to it, in order. */
  lemma {:induction false} PutAllAt(b: Board, nodes: seq<Node>, t: int, s: Slot)
    requires Full(b) && ValidSlot(s)
    ensures Get(PutAll(b, nodes, t), s) == Get(b, s) + Pick(nodes, Placement(t), s)
  {
    if nodes != [] {
      var rest, x := PutAll(b, nodes[..|nodes| - 1], t), nodes[|nodes| - 1];
      PutAllAt(b, nodes[..|nodes| - 1], t, s);
      var s' := SlotOf(x.expire, t);
      GetSet(rest, s', Get(rest, s') + [x], s);
    }
  }

  lemma CanonAdd(p: seq<Entry>, x: Entry, t: int)
    ensures Canon(p + [x], t) == Put(Canon(p, t), Node(Wrap(x.deadline), x.event), t)
  {
    NodesAppend(p, x);
    PutAllNext(Empty(), Nodes(p), Node(Wrap(x.deadline), x.event), t);
  }

  lemma CanonAt(p: seq<Entry>, t: int, s: Slot)
    requires ValidSlot(s)
    ensures Get(Canon(p, t), s) == Pick(Nodes(p), Placement(t), s)
  {
    PutAllAt(Empty(), Nodes(p), t, s);
  }

  /** Empty list `c` and place its nodes again at clock `t`. */
  ghost function Moved(b: Board, c: Slot, t: int): (r: Board)
    requires Full(b) && ValidSlot(c)
    ensures Full(r)
  {
    PutAll(Set(b, c, []), Get(b, c), t)
  }

  lemma MovedAt(b: Board, c: Slot, t: int, s: Slot)
    requires Full(b) && ValidSlot(c) && ValidSlot(s)
    ensures Get(Moved(b, c, t), s) == (if s == c then [] else Get(b, s)) + Pick(Get(b, c), Placement(t), s)
  {
    PutAllAt(Set(b, c, []), Get(b, c), t, s);
    GetSet(b, c, [], s);
  }

  /** Emptying and re-adding at most one list keeps the board canonical when the clock ticks. */
  lemma CanonTick(p: seq<Entry>, now: nat)
    requires InWindow(p, now, 1)
    ensures var ct := Wrap(now + 1); var b := Canon(p, Wrap(now));
      Canon(p, ct) == if Carry(ct) == 0 then b else Moved(b, CascadeSlot(ct), ct)
  {
    var t, ct := Wrap(now), Wrap(now + 1);
    var b := Canon(p, t);
    if Carry(ct) == 0 {
      forall s | ValidSlot(s) ensures Get(Canon(p, ct), s) == Get(b, s) {
        CanonAt(p, ct, s); CanonAt(p, t, s);
        TickStays(p, now, s);
      }
      SameBoard(Canon(p, ct), b);
    } else {
      var c := CascadeSlot(ct);
      TickDrops(p, now, c);
      CanonAt(p, t, c);
      forall s | ValidSlot(s) ensures Get(Canon(p, ct), s) == Get(Moved(b, c, ct), s) {
        CanonAt(p, ct, s); CanonAt(p, t, s);
        Redistribute(Nodes(p), Placement(t), Placement(ct), c, s);
        MovedAt(b, c, ct, s);
      }
      SameBoard(Canon(p, ct), Moved(b, c, ct));
    }
  }

  /** Dispatching the list under the clock fires the due timers and leaves the rest canonical. */
  lemma CanonDue(p: seq<Entry>, now: nat)
    requires InWindow(p, now, 0)
    ensures var b, d := Canon(p, Wrap(now)), Near(Wrap(now) % 0x100);
      && Events(Get(b, d)) == Due(p, now)
      && Canon(After(p, now), Wrap(now)) == Set(b, d, [])
      && InWindow(After(p, now), now, 1)
  {
    var t := Wrap(now);
    var b, d := Canon(p, t), Near(t % 0x100);
    NowIsDueList(p, now);
    DueList(p, now, Placement(t), d);
    CanonAt(p, t, d);
    AfterWindow(p, now);
    forall s | ValidSlot(s) ensures Get(Canon(After(p, now), t), s) == Get(Set(b, d, []), s) {
      DropDue(p, now, Placement(t), d, s);
      CanonAt(p, t, s); CanonAt(After(p, now), t, s);
      GetSet(b, d, [], s);
    }
    SameBoard(Canon(After(p, now), t), Set(b, d, []));
  }

  ghost predicate Good(f: Flat, t: int) { t == Wrap(f.now) && InWindow(f.pending, f.now, 1) }

  lemma AddKeeps(f: Flat, t: int, delay: nat, event: Event)
    requires Good(f, t) && 1 <= delay < HALF
    ensures Good(Add(f, delay, event), t)
    ensures Canon(Add(f, delay, event).pending, t) == Put(Canon(f.pending, t), Node(Later(t, delay), event), t)
  {
    hide Canon, Put, Wrap, Later, Good;
    var x := Entry(f.now + delay, event);
    WindowAdd(f, t, delay, event);
    CanonAdd(f.pending, x, t);
  }

  lemma WindowAdd(f: Flat, t: int, delay: nat, event: Event)
    requires Good(f, t) && 1 <= delay < HALF
    ensures Good(Add(f, delay, event), t) && 0 <= t < WRAP && Later(t, delay) == Wrap(f.now + delay)
  {
    hide Wrap, Later;
    WrapAdd(f.now, delay);
  }

  /** Between the shift and the execute pass a deadline may equal the clock. */
  ghost predicate Arrived(f: Flat, t: int) { t == Wrap(f.now) && InWindow(f.pending, f.now, 0) }

  lemma TickKeeps(f: Flat, t: int)
    requires Good(f, t)
    ensures var ct, b := Later(t, 1), Canon(f.pending, t);
      && Arrived(f.(now := f.now + 1), ct)
      && Canon(f.pending, ct) == if Carry(ct) == 0 then b else Moved(b, CascadeSlot(ct), ct)
  {
    assert Later(t, 1) == Wrap(f.now + 1) by { WrapAdd(f.now, 1); }
    CanonTick(f.pending, f.now);
  }

  lemma ExecuteKeeps(f: Flat, t: int)
    requires Arrived(f, t)
    ensures var f', b := Flat(f.now, After(f.pending, f.now)), Canon(f.pending, t);
      && Good(f', t)
      && Events(Get(b, Near(t % 0x100))) == Due(f.pending, f.now)
      && Canon(f'.pending, t) == Set(b, Near(t % 0x100), [])
  {
    CanonDue(f.pending, f.now);
  }

  /** The choice of list in add_node. */
  method FindList(e: Tick32, t: Tick32) returns (s: Slot)
    ensures s == SlotOf(e, t)
  {
    OrLowSame(e, t, 0);
    if OrLow(e, 0x100) == OrLow(t, 0x100) {
      s := Near(e % 0x100);
    } else {
      var i, mask := 0, 0x100 * 64;
      while i < 3
        invariant 0 <= i <= 3 && (i < 3 ==> mask == Span(i + 1))
        invariant forall l :: 0 <= l <= i ==> !Same(e, t, l)
      {
        OrLowSame(e, t, i + 1);
        if OrLow(e, mask) == OrLow(t, mask) { break; }
        mask := mask * 64 % WRAP;
        i := i + 1;
      }
      assert RankOf(e, t) == i + 1;
      s := Level(i, e / Span(i) % 64);
    }
  }

  /** The choice of list to redistribute in timer_shift; level -1 when there is none. */
  method CarryList(ct: Tick32) returns (level: int, idx: int)
    ensures if Carry(ct) == 0 then level == -1 else Level(level, idx) == CascadeSlot(ct)
  {
    if ct == 0 { return 3, 0; }
    var mask: int, rest: int, i := 0x100, ct / 0x100, 0;
    while ct % mask == 0
      invariant 0 <= i < 4 && mask == Span(i) && rest == Block(ct, i)
      invariant i > 0 ==> ct % mask == 0
      decreases 4 - i
    {
      CarryEnds(ct, i);
      idx := rest % 64;
      if idx != 0 { return i, idx; }
      Nested(ct, i);
      mask := mask * 64; rest := rest / 64; i := i + 1;
    }
    return -1, 0;
  }

  class Wheel {
    const near: array<seq<Node>>
    const levels: array<seq<Node>>
    var time: Tick32
    ghost var flat: Flat

    ghost predicate Shape() { near.Length == 256 && levels.Length == 256 && near != levels }

    ghost function Lists(): (b: Board)
      reads near, levels
    {
      Board(near[..], levels[..])
    }

    ghost predicate Canonical()
      reads this, near, levels
    {
      Shape() && Lists() == Canon(flat.pending, time)
    }

    ghost predicate Valid()
      reads this, near, levels
    {
      Canonical() && Good(flat, time)
    }

    ghost predicate Ready()
      reads this, near, levels
    {
      Canonical() && Arrived(flat, time)
    }

    constructor ()
      ensures Valid() && flat == Flat(0, []) && fresh(near) && fresh(levels)
    {
      near := new seq<Node>[256](_ => []);
      levels := new seq<Node>[256](_ => []);
      time := 0;
      flat := Flat(0, []);
    }

    /** add_node: append `node` to its canonical list. */
    method AddNode(node: Node)
      requires Shape()
      modifies near, levels
      ensures Lists() == Put(old(Lists()), node, time)
    {
      var s := FindList(node.expire, time);
      match s
      case Near(i) => near[i] := near[i] + [node];
      case Level(l, i) => levels[l * 64 + i] := levels[l * 64 + i] + [node];
    }

    /** timer_add: the node's 32-bit expiry wraps. */
    method TimerAdd(event: Event, delay: nat)
      requires Valid() && 1 <= delay < HALF
      modifies this, near, levels
      ensures Valid() && flat == Add(old(flat), delay, event)
    {
      ghost var f := Add(flat, delay, event);
      AddKeeps(flat, time, delay, event);
      AddNode(Node(Later(time, delay), event));
      flat := f;
    }

    /** move_list: empty one list and add its nodes again. */
    method MoveList(level: int, idx: int)
      requires Shape() && 0 <= level < 4 && 0 <= idx < 64
      modifies near, levels
      ensures Lists() == Moved(old(Lists()), Level(level, idx), time)
    {
      var current := levels[level * 64 + idx];
      levels[level * 64 + idx] := [];
      ghost var b := Lists();
      var k := 0;
      while k < |current|
        invariant 0 <= k <= |current|
        invariant Lists() == PutAll(b, current[..k], time)
      {
        assert current[..k + 1] == current[..k] + [current[k]];
        PutAllNext(b, current[..k], current[k], time);
        AddNode(current[k]);
        k := k + 1;
      }
      assert current[..k] == current;
    }

    /** timer_shift: advance the clock, then cascade. */
    method TimerShift()
      requires Valid()
      modifies this, near, levels
      ensures Ready() && flat == old(flat).(now := old(flat.now) + 1)
    {
      hide SlotOf, Carry, CascadeSlot, Canon, Moved, Arrived, Good;
      ghost var f := flat.(now := flat.now + 1);
      TickKeeps(flat, time);
      time, flat := Later(time, 1), f;
      var level, idx := CarryList(time);
      if level >= 0 { MoveList(level, idx); }
    }

    /** The detach loop of timer_execute. */
    method Detach(idx: int) returns (fired: seq<Event>)
      requires Shape() && 0 <= idx < 256
      modifies near
      ensures Lists() == Set(old(Lists()), Near(idx), []) && fired == Events(old(near[idx]))
    {
      fired := [];
      while near[idx] != []
        invariant (near[idx] == old(near[idx]) && fired == []) || (near[idx] == [] && fired == Events(old(near[idx])))
        invariant forall j :: 0 <= j < 256 && j != idx ==> near[j] == old(near[j])
        decreases |near[idx]|
      {
        fired := fired + Events(near[idx]);
        near[idx] := [];
      }
      assert near[..] == old(near[..])[idx := []];
    }

    /** timer_execute: dispatch the list under the clock until it stays empty. */
    method TimerExecute() returns (fired: seq<Event>)
      requires Ready()
      modifies this, near
      ensures Valid() && flat == Flat(old(flat.now), After(old(flat.pending), old(flat.now)))
      ensures fired == Due(old(flat.pending), old(flat.now))
    {
      ghost var f := Flat(flat.now, After(flat.pending, flat.now));
      ExecuteKeeps(flat, time);
      fired := Detach(time % 0x100);
      flat := f;
    }

    /** timer_update: the pass before the shift finds nothing; the pass after it
        fires exactly the timers whose deadline is the new tick, in the order added. */
    method TimerUpdate() returns (early: seq<Event>, fired: seq<Event>)
      requires Valid()
      modifies this, near, levels
      ensures Valid() && flat == Tick(old(flat))
      ensures early == [] && fired == Due(old(flat.pending), old(flat.now) + 1)
    {
      hide Canonical;
      ghost var f := flat;
      AllAfter(f.pending, f.now);
      early := TimerExecute();
      assert flat == f;
      TimerShift();
      fired := TimerExecute();
    }
  }

  ghost predicate LogOf(log: seq<seq<Event>>, ops: seq<Op>) {
    |log| == Ticks(ops) && forall k :: 0 <= k < |log| ==> log[k] == Due(Started(ops), k + 1)
  }

  lemma LogStart(log: seq<seq<Event>>, ops: seq<Op>, delay: nat, event: Event)
    requires LogOf(log, ops) && 1 <= delay
    ensures LogOf(log, ops + [Start(delay, event)])
    ensures StateAfter(ops + [Start(delay, event)]) == Add(StateAfter(ops), delay, event)
  { }

  lemma LogAdvance(log: seq<seq<Event>>, ops: seq<Op>)
    requires LogOf(log, ops)
    ensures LogOf(log + [Due(StateAfter(ops).pending, Ticks(ops) + 1)], ops + [Advance])
    ensures StateAfter(ops + [Advance]) == Tick(StateAfter(ops))
  {
    AdvanceNext(ops);
  }

  function Concat(log: seq<seq<Event>>): seq<Event> {
    if log == [] then [] else Concat(log[..|log| - 1]) + log[|log| - 1]
  }

  lemma {:induction false} ConcatFired(log: seq<seq<Event>>, p: seq<Entry>)
    requires forall k :: 0 <= k < |log| ==> log[k] == Due(p, k + 1)
    ensures Concat(log) == FiredBy(p, |log|)
  {
    if log != [] { ConcatFired(log[..|log| - 1], p); }
  }

  lemma {:induction false} StartedLater(ops: seq<Op>)
    requires Legal(ops, HALF)
    ensures forall i :: 0 <= i < |Started(ops)| ==> Started(ops)[i].deadline > 0
  {
    if ops != [] { StartedLater(ops[..|ops| - 1]); }
  }

  /** What was started is what the log holds and what is pending, each timer once. */
  lemma LogConserves(log: seq<seq<Event>>, ops: seq<Op>)
    requires Legal(ops, HALF) && LogOf(log, ops)
    ensures multiset(EventsOf(Started(ops))) == multiset(Concat(log)) + multiset(EventsOf(StateAfter(ops).pending))
  {
    hide EventsOf, Concat, Started, After, FiredBy, Due;
    StartedLater(ops);
    ConcatFired(log, Started(ops));
    FiredOnce(Started(ops), Ticks(ops));
  }

  lemma LogInOrder(log: seq<seq<Event>>, ops: seq<Op>)
    requires LogOf(log, ops)
    ensures forall k :: 0 <= k < |log| ==> InOrder(log[k], ops, k + 1)
  {
    forall k | 0 <= k < |log| ensures InOrder(log[k], ops, k + 1) { DueInOrder(ops, k + 1); }
  }

  /** A whole run of the wheel from its creation: every timer fires in the pass after
      the tick it was set for, timers of one tick fire in the order added, and no timer is
      lost or fires twice. */
  method RunWheel(ops: seq<Op>) returns (log: seq<seq<Event>>, w: Wheel)
    requires Legal(ops, HALF)
    ensures LogOf(log, ops) && w.Valid() && w.flat == StateAfter(ops) && w.time == Ticks(ops) % WRAP
    ensures |log| == Ticks(ops) && forall k :: 0 <= k < |log| ==> InOrder(log[k], ops, k + 1)
    ensures multiset(EventsOf(Started(ops))) == multiset(Concat(log)) + multiset(EventsOf(w.flat.pending))
  {
    hide Wheel.Valid, EventsOf, Concat, InOrder;
    w := new Wheel();
    log := [];
    assert ops[..0] == [];
    for n := 0 to |ops|
      invariant w.Valid() && w.flat == StateAfter(ops[..n]) && fresh(w) && fresh(w.near) && fresh(w.levels)
      invariant LogOf(log, ops[..n])
    {
      assert ops[..n + 1] == ops[..n] + [ops[n]];
      match ops[n]
      case Start(delay, event) =>
        LogStart(log, ops[..n], delay, event);
        w.TimerAdd(event, delay);
      case Advance =>
        LogAdvance(log, ops[..n]);
        var early, fired := w.TimerUpdate();
        log := log + [fired];
    }
    assert ops[..|ops|] == ops;
    LogConserves(log, ops);
    LogInOrder(log, ops);
    ClockIs(w);
  }

  /** The clock of the wheel is the tick count modulo 2^32. */
  lemma ClockIs(w: Wheel)
    requires w.Valid()
    ensures w.time == w.flat.now % WRAP
  {
    WrapIsMod(w.flat.now);
  }
}
