/** Runs of receives on one buffer ring, between extensions. */
module BufferRuns {
  import opened Common
  import opened Arithmetic
  import opened Masks
  import opened BufferRing

  // A completed receive that the program has not come to; `wrote` is what the kernel wrote for it.
  datatype Pend = Pend(receive: nat, res: nat, flags: nat, wrote: seq<Byte>)

  // Bytes handed to the connection of a receive, and the bytes written for it.
  datatype Handed = Handed(receive: nat, bytes: seq<Byte>, wrote: seq<Byte>)

  datatype Sys = Sys(buf: Buf, head: nat, pending: seq<Pend>, handed: seq<Handed>)

  predicate Ready(b: Buf) { b.br.Some? && b.mask + 1 == |b.br.value.slots| }

  function Len(s: Sys): nat
    requires Ready(s.buf)
  {
    Gap(s.head, s.buf.br.value.tail)
  }

  // The entry that is `i` after the head.
  function At(s: Sys, i: nat): Desc
    requires Ready(s.buf)
  {
    s.buf.br.value.slots[Slot(s.head, i, s.buf.mask)]
  }

  // The ids of the entries between head and tail, and those lent to completed receives.
  function InRing(s: Sys): (r: seq<nat>)
    requires Ready(s.buf)
  {
    seq(Len(s), i requires 0 <= i => At(s, i).bid)
  }

  function BidOf(p: Pend): nat { p.flags / 0x10000 }
  function Lent(s: Sys): seq<nat> { seq(|s.pending|, i requires 0 <= i < |s.pending| => BidOf(s.pending[i])) }
  function Ids(n: nat): seq<nat> { seq(n, i => i) }

  function Write(data: seq<Byte>, at: nat, bytes: seq<Byte>): seq<Byte> {
    if at + |bytes| <= |data| then data[..at] + bytes + data[at + |bytes|..] else data
  }

  // The kernel completes a receive: it writes into the buffer at the head of the ring, at least one
  // byte and at most as many as that is long, and puts its id above the low bits of the flags.
  predicate CanDeliver(s: Sys, bytes: seq<Byte>, low: nat) {
    Ready(s.buf) && Len(s) > 0 && 0 < |bytes| <= At(s, 0).len && low < 0x10000
  }

  function Deliver(s: Sys, receive: nat, bytes: seq<Byte>, low: nat): Sys
    requires CanDeliver(s, bytes, low)
  {
    var d := At(s, 0);
    s.(buf := s.buf.(data := Write(s.buf.data, d.offset, bytes)),
       head := (s.head + 1) % TAILS,
       pending := s.pending + [Pend(receive, |bytes|, d.bid * 0x10000 + low, bytes)])
  }

  // The program comes to one of the completed receives, in any order.
  predicate CanTake(s: Sys, i: nat) {
    i < |s.pending| && Ready(s.buf) && Receive(s.buf, [Completion(s.pending[i].res, s.pending[i].flags)], [0]).Received?
  }

  function Take(s: Sys, i: nat): Sys
    requires CanTake(s, i)
  {
    var p := s.pending[i];
    var done := Receive(s.buf, [Completion(p.res, p.flags)], [0]);
    s.(buf := done.buf, pending := s.pending[..i] + s.pending[i + 1..],
      handed := s.handed + [Handed(p.receive, done.bytes, p.wrote)])
  }

  // A receive that ends the stream completes with no bytes and no buffer, so its flags have no id.
  // Nothing happens to the ring until the program comes to it.
  predicate CanEnd(s: Sys, low: nat) {
    low < 0x10000 && Ready(s.buf) && Receive(s.buf, [Completion(0, low)], [0]).Received?
  }

  function End(s: Sys, receive: nat, low: nat): Sys
    requires CanEnd(s, low)
  {
    var done := Receive(s.buf, [Completion(0, low)], [0]);
    s.(buf := done.buf, handed := s.handed + [Handed(receive, done.bytes, [])])
  }

  datatype Label = LDeliver(receive: nat, bytes: seq<Byte>, low: nat) | LTake(i: nat) | LEnd(receive: nat, low: nat)

  ghost predicate Step(l: Label, s: Sys, s': Sys) {
    match l
    case LDeliver(receive, bytes, low) => CanDeliver(s, bytes, low) && s' == Deliver(s, receive, bytes, low)
    case LTake(i) => CanTake(s, i) && s' == Take(s, i)
    case LEnd(receive, low) => CanEnd(s, low) && s' == End(s, receive, low)
  }

  // How many streams have ended.
  function Ends(ls: seq<Label>): nat {
    if ls == [] then 0 else Ends(ls[..|ls| - 1]) + if ls[|ls| - 1].LEnd? then 1 else 0
  }

  // -- The invariant

  ghost predicate Sized(s: Sys, k: nat) {
    var n := Pow2(k);
    && k <= 15 && Ready(s.buf) && s.buf.mask == n - 1 && s.head < TAILS && s.buf.br.value.tail < TAILS
    && |s.buf.data| == n * BUFFER_RING_SIZE
  }

  /** Every id is exactly once in the ring or lent out. */
  ghost predicate Conserved(s: Sys)
    requires Ready(s.buf)
  {
    multiset(InRing(s)) + multiset(Lent(s)) == multiset(Ids(s.buf.mask + 1))
  }

  ghost predicate DescsOk(s: Sys)
    requires Ready(s.buf)
  {
    forall i {:trigger At(s, i)} | 0 <= i < Len(s) :: At(s, i) == Buffer(At(s, i).bid)
  }

  ghost predicate PendOk(s: Sys, p: Pend) {
    && |p.wrote| == p.res <= BUFFER_RING_SIZE && InData(s.buf, BidOf(p), BUFFER_RING_SIZE)
       && Slice(s.buf, BidOf(p), p.res) == p.wrote
  }

  ghost predicate Inv(s: Sys, k: nat) {
    && Sized(s, k) && Conserved(s) && DescsOk(s)
    && (forall i {:trigger s.pending[i]} | 0 <= i < |s.pending| :: PendOk(s, s.pending[i]))
    && (forall i | 0 <= i < |s.handed| :: s.handed[i].bytes == s.handed[i].wrote)
  }

  // -- Ids that appear once

  lemma {:induction false} CountOfIds(n: nat, x: nat)
    ensures multiset(Ids(n))[x] == if x < n then 1 else 0
  {
    if n > 0 {
      CountOfIds(n - 1, x);
      assert Ids(n) == Ids(n - 1) + [n - 1];
    }
  }

  lemma MemberCounts(a: seq<nat>, i: nat)
    requires i < |a|
    ensures multiset(a)[a[i]] >= 1
  {
    assert a[i] in multiset(a);
  }

  lemma TwiceCounts(a: seq<nat>, i: nat, j: nat)
    requires i < j < |a| && a[i] == a[j]
    ensures multiset(a)[a[i]] >= 2
  {
    assert a == a[..j] + a[j..];
    MemberCounts(a[..j], i);
    MemberCounts(a[j..], 0);
  }

  /** No id is twice in the ring, twice lent, or both in the ring and lent, and none is out of range. */
  lemma IdsApart(s: Sys)
    requires Ready(s.buf) && Conserved(s)
    ensures forall i | 0 <= i < |InRing(s)| :: InRing(s)[i] <= s.buf.mask
    ensures forall i | 0 <= i < |Lent(s)| :: Lent(s)[i] <= s.buf.mask
    ensures forall i, j | 0 <= i < j < |Lent(s)| :: Lent(s)[i] != Lent(s)[j]
    ensures forall i, j | 0 <= i < j < |InRing(s)| :: InRing(s)[i] != InRing(s)[j]
    ensures forall i, j | 0 <= i < |InRing(s)| && 0 <= j < |Lent(s)| :: InRing(s)[i] != Lent(s)[j]
    ensures Len(s) + |s.pending| == s.buf.mask + 1
  {
    var n, a, b := s.buf.mask + 1, InRing(s), Lent(s);
    assert |multiset(a)| + |multiset(b)| == |multiset(a) + multiset(b)| == |multiset(Ids(n))| == n;
    forall i | 0 <= i < |a| ensures a[i] <= s.buf.mask { MemberCounts(a, i); CountOfIds(n, a[i]); }
    forall i | 0 <= i < |b| ensures b[i] <= s.buf.mask { MemberCounts(b, i); CountOfIds(n, b[i]); }
    forall i, j | 0 <= i < j < |b| ensures b[i] != b[j] {
      CountOfIds(n, b[i]);
      if b[i] == b[j] { TwiceCounts(b, i, j); assert false; }
    }
    forall i, j | 0 <= i < j < |a| ensures a[i] != a[j] {
      CountOfIds(n, a[i]);
      if a[i] == a[j] { TwiceCounts(a, i, j); assert false; }
    }
    forall i, j | 0 <= i < |a| && 0 <= j < |b| ensures a[i] != b[j] {
      MemberCounts(a, i);
      MemberCounts(b, j);
      CountOfIds(n, a[i]);
    }
  }

  // -- Deliver

  lemma NextSlot(head: nat, i: nat, mask: nat)
    ensures Slot((head + 1) % TAILS, i, mask) == Slot(head, i + 1, mask)
  {
    assert ((head + 1) % TAILS + i) % TAILS == (head + (i + 1)) % TAILS;
  }

  lemma RingAfterDeliver(s: Sys, k: nat, receive: nat, bytes: seq<Byte>, low: nat)
    requires Sized(s, k) && CanDeliver(s, bytes, low)
    ensures var s' := Deliver(s, receive, bytes, low);
      && Ready(s'.buf) && Len(s') == Len(s) - 1 && (forall i: nat :: At(s', i) == At(s, i + 1))
      && InRing(s) == [At(s, 0).bid] + InRing(s')
  {
    var s' := Deliver(s, receive, bytes, low);
    GapMoves(s.head, s.buf.br.value.tail);
    forall i: nat ensures At(s', i) == At(s, i + 1) { NextSlot(s.head, i, s.buf.mask); }
  }

  lemma WrittenApart(data: seq<Byte>, at: nat, bytes: seq<Byte>, from: nat, len: nat)
    requires at + |bytes| <= |data| && from + len <= |data| && (from + len <= at || at + |bytes| <= from)
    ensures |Write(data, at, bytes)| == |data| && Write(data, at, bytes)[from..from + len] == data[from..from + len]
  {}

  // What was lent before still has what was written to it.
  lemma StillWritten(s: Sys, receive: nat, bytes: seq<Byte>, low: nat, p: Pend)
    requires CanDeliver(s, bytes, low) && PendOk(s, p) && At(s, 0) == Buffer(At(s, 0).bid) && At(s, 0).bid != BidOf(p)
    requires InData(s.buf, At(s, 0).bid, BUFFER_RING_SIZE)
    ensures PendOk(Deliver(s, receive, bytes, low), p)
  {
    WrittenApart(s.buf.data, At(s, 0).offset, bytes, BidOf(p) * BUFFER_RING_SIZE, p.res);
  }

  lemma NowWritten(s: Sys, receive: nat, bytes: seq<Byte>, low: nat)
    requires CanDeliver(s, bytes, low) && At(s, 0) == Buffer(At(s, 0).bid)
      && InData(s.buf, At(s, 0).bid, BUFFER_RING_SIZE)
    ensures var s' := Deliver(s, receive, bytes, low); PendOk(s', s'.pending[|s.pending|])
    ensures Lent(Deliver(s, receive, bytes, low)) == Lent(s) + [At(s, 0).bid]
  {}

  lemma DeliverKeeps(s: Sys, k: nat, receive: nat, bytes: seq<Byte>, low: nat)
    requires Inv(s, k) && CanDeliver(s, bytes, low)
    ensures Inv(Deliver(s, receive, bytes, low), k)
  {
    var s' := Deliver(s, receive, bytes, low);
    RingAfterDeliver(s, k, receive, bytes, low);
    IdsApart(s);
    assert InRing(s)[0] == At(s, 0).bid;
    NowWritten(s, receive, bytes, low);
    forall i | 0 <= i < |s'.pending| ensures PendOk(s', s'.pending[i]) {
      if i < |s.pending| {
        assert PendOk(s, s.pending[i]) && Lent(s)[i] == BidOf(s.pending[i]);
        StillWritten(s, receive, bytes, low, s.pending[i]);
      }
    }
    forall i | 0 <= i < Len(s') ensures At(s', i) == Buffer(At(s', i).bid) {
      assert At(s, i + 1) == Buffer(At(s, i + 1).bid);
    }
  }

  // -- Take

  // The flags of a pending receive decode to the id lent to it.
  lemma TakeIs(s: Sys, k: nat, i: nat)
    requires Inv(s, k) && i < |s.pending|
    ensures CanTake(s, i) && BidOf(s.pending[i]) <= s.buf.mask
    ensures Take(s, i).buf == Repaid(s.buf, BidOf(s.pending[i]))
    ensures Take(s, i).handed == s.handed + [Handed(s.pending[i].receive, s.pending[i].wrote, s.pending[i].wrote)]
  {
    IdsApart(s);
    var p := s.pending[i];
    assert PendOk(s, p) && Lent(s)[i] == BidOf(p);
    SmallRing(k);
    assert p.flags == BidOf(p) * 0x10000 + p.flags % 0x10000;
    BufferIdIff(BidOf(p), p.flags % 0x10000);
  }

  lemma SmallRing(k: nat)
    requires k <= 15
    ensures Pow2(k) <= 0x8000
  {
    Pow16();
    assert Pow2(16) == 2 * Pow2(15);
    if k < 15 { Pow2Grows(k, 15); }
  }

  // The entries between head and tail are not in the slot at the tail.
  lemma TailSlotIsFree(head: nat, tail: nat, k: nat, j: nat)
    requires k <= 15 && head < TAILS && tail < TAILS && j < Gap(head, tail) < Pow2(k)
    ensures And(tail, Pow2(k) - 1) != Slot(head, j, Pow2(k) - 1)
  {
    TailSlot(head, tail, Pow2(k) - 1);
    PowerSlotsApart(head, k, j, Gap(head, tail));
  }

  // The repaid buffer goes behind the others and over none of them.
  lemma RingAfterRepay(s: Sys, s': Sys, k: nat, bid: nat)
    requires Sized(s, k) && Len(s) < Pow2(k) && s'.buf == Repaid(s.buf, bid) && s'.head == s.head
    ensures Sized(s', k) && Len(s') == Len(s) + 1
    ensures (forall j | 0 <= j < Len(s) :: At(s', j) == At(s, j)) && At(s', Len(s)) == Buffer(bid)
    ensures InRing(s') == InRing(s) + [bid]
  {
    SmallRing(k);
    RepayLen(s, s', k, bid);
    AtAfterRepay(s, s', k, bid);
  }

  lemma AtAfterRepay(s: Sys, s': Sys, k: nat, bid: nat)
    requires Sized(s, k) && Len(s) < Pow2(k) && s'.buf == Repaid(s.buf, bid) && s'.head == s.head
    ensures Ready(s'.buf) && (forall j | 0 <= j < Len(s) :: At(s', j) == At(s, j)) && At(s', Len(s)) == Buffer(bid)
  {
    var tail := s.buf.br.value.tail;
    TailSlot(s.head, tail, s.buf.mask);
    forall j | 0 <= j < Len(s) ensures At(s', j) == At(s, j) { TailSlotIsFree(s.head, tail, k, j); }
  }

  lemma TailSlot(head: nat, tail: nat, mask: nat)
    requires head < TAILS && tail < TAILS
    ensures Slot(head, Gap(head, tail), mask) == And(tail, mask)
  {
    GapMoves(head, tail);
  }

  lemma LentAfterTake(s: Sys, i: nat)
    requires CanTake(s, i)
    ensures multiset(Lent(s)) == multiset(Lent(Take(s, i))) + multiset{BidOf(s.pending[i])}
  {
    var a := Lent(s);
    assert Lent(Take(s, i)) == a[..i] + a[i + 1..];
    assert a == a[..i] + [a[i]] + a[i + 1..];
  }

  lemma ConservedAfterTake(s: Sys, s': Sys, bid: nat)
    requires Ready(s.buf) && Conserved(s) && Ready(s'.buf) && s'.buf.mask == s.buf.mask
    requires InRing(s') == InRing(s) + [bid] && multiset(Lent(s)) == multiset(Lent(s')) + multiset{bid}
    ensures Conserved(s')
  {}

  lemma TakeKeeps(s: Sys, k: nat, i: nat)
    requires Inv(s, k) && CanTake(s, i)
    ensures Inv(Take(s, i), k)
  {
    var s', bid := Take(s, i), BidOf(s.pending[i]);
    IdsApart(s);
    TakeIs(s, k, i);
    RingAfterRepay(s, s', k, bid);
    LentAfterTake(s, i);
    ConservedAfterTake(s, s', bid);
    forall j | 0 <= j < |s'.pending| ensures PendOk(s', s'.pending[j]) {
      assert s'.pending[j] == s.pending[if j < i then j else j + 1];
    }
    forall j | 0 <= j < Len(s') ensures At(s', j) == Buffer(At(s', j).bid) {
      if j < Len(s) { assert At(s, j) == Buffer(At(s, j).bid); }
    }
  }

  // -- The start: a ring that has just been set up

  lemma SmallIndex(i: nat, k: nat)
    requires i < Pow2(k)
    ensures And(i, Pow2(k) - 1) == i
  {
    MaskIsMod(i, k);
    ModOf(i, Pow2(k), 0, i);
  }

  ghost predicate Holds(s: Shared, i: nat) { i <= |s.slots| && forall j | 0 <= j < i :: s.slots[j] == Buffer(j) }

  lemma {:induction false} FilledIs(n: nat, k: nat, i: nat)
    requires n == Pow2(k) && i <= n
    ensures Holds(Filled(n, n - 1, i), i)
  {
    if i > 0 {
      FilledIs(n, k, i - 1);
      SmallIndex(i - 1, k);
      AddHolds(Filled(n, n - 1, i - 1), n - 1, i - 1);
    }
  }

  lemma AddHolds(s: Shared, mask: nat, i: nat)
    requires i <= mask < |s.slots| && s.tail == 0 && And(i, mask) == i && Holds(s, i)
    ensures Holds(Add(s, Buffer(i), mask, i), i + 1)
  {}

  function Start(b: Buf, res: int): Sys { Sys(Extended(b, res), 0, [], []) }

  lemma Sizes()
    ensures Pow2(14) == N_BUFFERS && Pow2(15) == 2 * N_BUFFERS
  {
    Pow16();
    assert Pow2(16) == 2 * Pow2(15) && Pow2(15) == 2 * Pow2(14);
  }

  lemma StartSlots(n: nat, k: nat, i: nat)
    requires k <= 15 && n == Pow2(k) && i < n
    ensures Filled(n, n - 1, n).slots[Slot(0, i, n - 1)] == Buffer(i)
  {
    FilledIs(n, k, n);
    SlotIsMod(0, i, k);
    ModOf(i, n, 0, i);
  }

  // A ring whose entries are all the buffers, in order.
  ghost predicate Full(s: Sys, k: nat) {
    && Sized(s, k) && Len(s) == Pow2(k) && s.pending == [] && s.handed == []
    && forall i {:trigger At(s, i)} | 0 <= i < Pow2(k) :: At(s, i) == Buffer(i)
  }

  lemma StartIsFull(b: Buf, res: int)
    requires res >= 0 && b.count < 2
    ensures Full(Start(b, res), 14 + b.count)
  {
    var s, k, n := Start(b, res), 14 + b.count, N_BUFFERS * (b.count + 1);
    Sizes();
    forall i | 0 <= i < n ensures At(s, i) == Buffer(i) { StartSlots(n, k, i); }
  }

  lemma FullIsOk(s: Sys, k: nat)
    requires Full(s, k)
    ensures Inv(s, k)
  {
    assert InRing(s) == Ids(Pow2(k));
    assert Lent(s) == [];
  }

  lemma StartOk(b: Buf, res: int)
    requires res >= 0 && b.count < 2
    ensures Inv(Start(b, res), 14 + b.count)
  {
    StartIsFull(b, res);
    FullIsOk(Start(b, res), 14 + b.count);
  }

  // -- After a receive that found no buffer

  /** Once the ring has been extended for the receives that found no buffer, the next receive can be
      delivered, with as many bytes as a buffer holds. */
  lemma RetryCanBeDelivered(b: Buf, cs: seq<Completion>, setups: seq<int>, m: nat, bytes: seq<Byte>, low: nat)
    returns (s: Sys)
    requires |setups| >= |cs| > 0 && cs[|cs| - 1].res != -ENOBUFS && NoBuffers(cs, m) && 0 < m <= 2 - b.count
    requires forall i | 0 <= i < m :: setups[i] >= 0
    requires 0 < |bytes| <= BUFFER_RING_SIZE && low < 0x10000
    ensures SetUp(s.buf, b.count + m) && Len(s) == N_BUFFERS * (b.count + m) && s.pending == []
    ensures CanDeliver(s, bytes, low) && Inv(s, 13 + b.count + m)
    ensures Receive(b, cs, setups) == Receive(s.buf, cs[m..], setups[m..])
  {
    var x, y := RetriesExtend(b, cs, setups, m);
    s := Start(y, setups[m - 1]);
    StartIsFull(y, setups[m - 1]);
    FullIsOk(s, 14 + y.count);
    Sizes();
    assert At(s, 0) == Buffer(0);
  }

  // -- Theorems

  ghost predicate IsRun(ls: seq<Label>, ss: seq<Sys>) {
    |ss| == |ls| + 1 && forall i {:trigger StepOf(ls, ss, i)} | 0 <= i < |ls| :: StepOf(ls, ss, i)
  }

  ghost predicate StepOf(ls: seq<Label>, ss: seq<Sys>, i: nat)
    requires i < |ls| && |ss| == |ls| + 1
  {
    Step(ls[i], ss[i], ss[i + 1])
  }

  lemma EndsGrow(ls: seq<Label>, i: nat)
    requires 0 < i <= |ls|
    ensures Ends(ls[..i]) == Ends(ls[..i - 1]) + if ls[i - 1].LEnd? then 1 else 0
  {
    assert ls[..i][..i - 1] == ls[..i - 1];
  }

  lemma {:induction false} RunKeeps(b: Buf, res: int, ls: seq<Label>, ss: seq<Sys>, i: nat)
    requires IsRun(ls, ss) && ss[0] == Start(b, res) && res >= 0 && b.count < 2 && i <= |ls| && Ends(ls[..i]) == 0
    ensures Inv(ss[i], 14 + b.count)
  {
    if i == 0 { StartOk(b, res); } else {
      EndsGrow(ls, i);
      RunKeeps(b, res, ls, ss, i - 1);
      assert StepOf(ls, ss, i - 1);
      match ls[i - 1]
      case LDeliver(receive, bytes, low) => DeliverKeeps(ss[i - 1], 14 + b.count, receive, bytes, low);
      case LTake(j) => TakeKeeps(ss[i - 1], 14 + b.count, j);
    }
  }

  /** However receives complete and are come to, every buffer id is exactly once in the ring or lent,
      none is out of range, and what is lent lies within the buffer memory. */
  lemma BufferConservation(b: Buf, res: int, ls: seq<Label>, ss: seq<Sys>, i: nat, id: nat)
    requires IsRun(ls, ss) && ss[0] == Start(b, res) && res >= 0 && b.count < 2 && i <= |ls|
    requires Ends(ls[..i]) == 0
    ensures Ready(ss[i].buf) && ss[i].buf.mask + 1 == N_BUFFERS * (b.count + 1)
    ensures multiset(InRing(ss[i]))[id] + multiset(Lent(ss[i]))[id] == if id < N_BUFFERS * (b.count + 1) then 1 else 0
    ensures forall j | 0 <= j < |ss[i].pending| :: InData(ss[i].buf, BidOf(ss[i].pending[j]), BUFFER_RING_SIZE)
  {
    RunKeeps(b, res, ls, ss, i);
    Sizes();
    CountOfIds(N_BUFFERS * (b.count + 1), id);
    forall j | 0 <= j < |ss[i].pending| ensures InData(ss[i].buf, BidOf(ss[i].pending[j]), BUFFER_RING_SIZE) {
      assert PendOk(ss[i], ss[i].pending[j]);
    }
  }

  /** A completed receive can always be come to, and its connection is handed exactly the bytes the
      kernel wrote for it, whatever was received and repaid in between. */
  lemma BufferIntegrity(b: Buf, res: int, ls: seq<Label>, ss: seq<Sys>, i: nat, j: nat)
    requires IsRun(ls, ss) && ss[0] == Start(b, res) && res >= 0 && b.count < 2 && i <= |ls| && j < |ss[i].pending|
    requires Ends(ls[..i]) == 0
    ensures CanTake(ss[i], j)
    ensures var p := ss[i].pending[j]; Take(ss[i], j).handed == ss[i].handed + [Handed(p.receive, p.wrote, p.wrote)]
    ensures forall h | 0 <= h < |ss[i].handed| :: ss[i].handed[h].bytes == ss[i].handed[h].wrote
  {
    RunKeeps(b, res, ls, ss, i);
    TakeIs(ss[i], 14 + b.count, j);
  }

  /** Repaying writes over no entry that is in the ring. */
  lemma RepayOverwritesNothing(b: Buf, res: int, ls: seq<Label>, ss: seq<Sys>, i: nat, j: nat, e: nat)
    requires IsRun(ls, ss) && ss[0] == Start(b, res) && res >= 0 && b.count < 2 && i <= |ls| && j < |ss[i].pending|
    requires Ends(ls[..i]) == 0 && Ready(ss[i].buf) && e < Len(ss[i])
    ensures CanTake(ss[i], j) && Ready(Take(ss[i], j).buf) && Take(ss[i], j).head == ss[i].head
    ensures Len(Take(ss[i], j)) == Len(ss[i]) + 1 && At(Take(ss[i], j), e) == At(ss[i], e)
  {
    RunKeeps(b, res, ls, ss, i);
    TakeIs(ss[i], 14 + b.count, j);
    IdsApart(ss[i]);
    RingAfterRepay(ss[i], Take(ss[i], j), 14 + b.count, BidOf(ss[i].pending[j]));
  }

  // -- Ends of streams

  // Every end of a stream has put one entry too many into the ring, as far as 16 bits can tell.
  ghost predicate Rough(s: Sys, k: nat, e: nat) { Sized(s, k) && SameCount(Len(s) + |s.pending|, Pow2(k) + e) }

  predicate SameCount(a: nat, b: nat) { a % TAILS == b % TAILS }

  lemma OneMore(len: nat, others: nat, n: nat)
    requires len < TAILS && SameCount(len + others, n)
    ensures SameCount((len + 1) % TAILS + others, n + 1)
    ensures others > 0 ==> SameCount((len + 1) % TAILS + (others - 1), n)
  {
    if len == TAILS - 1 { assert (len + 1) % TAILS == 0; }
  }

  lemma RepayLen(s: Sys, s': Sys, k: nat, bid: nat)
    requires Sized(s, k) && s'.buf == Repaid(s.buf, bid) && s'.head == s.head
    ensures Sized(s', k) && Len(s') == (Len(s) + 1) % TAILS
  {
    GapMoves(s.head, s.buf.br.value.tail);
  }

  lemma ReceivedRepays(b: Buf, c: Completion)
    requires Ready(b) && c.res != -ENOBUFS && Receive(b, [c], [0]).Received?
    ensures exists bid: nat :: Receive(b, [c], [0]).buf == Repaid(b, bid)
  {
    var bid := BufferIdOf(AsInt32(c.flags));
    assert bid >= 0 && Receive(b, [c], [0]).buf == Repaid(b, bid);
  }

  lemma TakeIsRough(s: Sys, k: nat, e: nat, i: nat)
    requires Rough(s, k, e) && CanTake(s, i)
    ensures Rough(Take(s, i), k, e)
  {
    var c := Completion(s.pending[i].res, s.pending[i].flags);
    ReceivedRepays(s.buf, c);
    var bid: nat :| Receive(s.buf, [c], [0]).buf == Repaid(s.buf, bid);
    RepayLen(s, Take(s, i), k, bid);
    OneMore(Len(s), |s.pending|, Pow2(k) + e);
  }

  lemma EndIsRough(s: Sys, k: nat, e: nat, receive: nat, low: nat)
    requires Rough(s, k, e) && CanEnd(s, low)
    ensures Rough(End(s, receive, low), k, e + 1)
  {
    NothingReceived(s.buf, low);
    RepayLen(s, End(s, receive, low), k, 0);
    OneMore(Len(s), |s.pending|, Pow2(k) + e);
  }

  lemma DeliverIsRough(s: Sys, k: nat, e: nat, receive: nat, bytes: seq<Byte>, low: nat)
    requires Rough(s, k, e) && CanDeliver(s, bytes, low)
    ensures Rough(Deliver(s, receive, bytes, low), k, e)
  {
    RingAfterDeliver(s, k, receive, bytes, low);
  }

  lemma {:induction false} RunIsRough(b: Buf, res: int, ls: seq<Label>, ss: seq<Sys>, i: nat)
    requires IsRun(ls, ss) && ss[0] == Start(b, res) && res >= 0 && b.count < 2 && i <= |ls|
    ensures Rough(ss[i], 14 + b.count, Ends(ls[..i]))
  {
    var k := 14 + b.count;
    if i == 0 {
      StartOk(b, res);
      IdsApart(ss[0]);
    } else {
      EndsGrow(ls, i);
      RunIsRough(b, res, ls, ss, i - 1);
      assert StepOf(ls, ss, i - 1);
      var s, e := ss[i - 1], Ends(ls[..i - 1]);
      match ls[i - 1]
      case LDeliver(receive, bytes, low) => DeliverIsRough(s, k, e, receive, bytes, low);
      case LTake(j) => TakeIsRough(s, k, e, j);
      case LEnd(receive, low) => EndIsRough(s, k, e, receive, low);
    }
  }

  /** In every run between extensions every id is once in the ring or lent as long as no receive that
      ended a stream has been come to: such a receive has no buffer, but buffer 0 is repaid for it all
      the same. From the first on it never is so again, but perhaps after each 65536 of them, when the
      tail has come round. */
  lemma ConservedIff(b: Buf, res: int, ls: seq<Label>, ss: seq<Sys>, i: nat)
    requires IsRun(ls, ss) && ss[0] == Start(b, res) && res >= 0 && b.count < 2 && i <= |ls|
    ensures Ready(ss[i].buf)
    ensures Ends(ls[..i]) < TAILS ==> (Conserved(ss[i]) <==> Ends(ls[..i]) == 0)
    ensures Conserved(ss[i]) ==> Ends(ls[..i]) % TAILS == 0
  {
    RunIsRough(b, res, ls, ss, i);
    if Ends(ls[..i]) == 0 { RunKeeps(b, res, ls, ss, i); }
    if Conserved(ss[i]) {
      IdsApart(ss[i]);
      NoneLeftOver(Pow2(14 + b.count), Ends(ls[..i]));
    }
  }

  lemma NoneLeftOver(n: nat, e: nat)
    requires SameCount(n, n + e)
    ensures e % TAILS == 0
  {}

  lemma NothingReceived(b: Buf, low: nat)
    requires Ready(b) && low < 0x10000
    ensures Receive(b, [Completion(0, low)], [0]) == Received(Repaid(b, 0), [], 0)
  {
    BufferIdIff(0, low);
  }

  // -- A run in which one receive is handed another's bytes

  lemma RunGoesOn(ls: seq<Label>, ss: seq<Sys>, l: Label, s: Sys)
    requires IsRun(ls, ss) && Step(l, ss[|ls|], s)
    ensures IsRun(ls + [l], ss + [s]) && (ss + [s])[0] == ss[0] && (ss + [s])[|ls + [l]|] == s
    ensures Ends(ls + [l]) == Ends(ls) + if l.LEnd? then 1 else 0
  {
    var ls', ss' := ls + [l], ss + [s];
    assert ls'[..|ls|] == ls;
    forall i | 0 <= i < |ls'| ensures StepOf(ls', ss', i) {
      if i < |ls| { assert StepOf(ls, ss, i); }
    }
  }

  // Receives 1 and 9 have come first: buffer 0 was lent to 1, and 9 ended its stream. After `j` more
  // receives buffer 0 is the last but j of the ring, and still lent to receive 1.
  ghost predicate Waiting(s: Sys, k: nat, n: nat, j: nat) {
    && Sized(s, k) && n == Pow2(k) && j < n && Len(s) == n - j
    && (forall i {:trigger At(s, i)} | 0 <= i < n - j - 1 :: At(s, i) == Buffer(i + 1 + j))
    && At(s, n - j - 1) == Buffer(0)
    && s.pending != [] && s.pending[0] == Pend(1, 1, 0, [0])
  }

  lemma LentAndRepaid(b: Buf) returns (ls: seq<Label>, ss: seq<Sys>)
    requires b.count == 0
    ensures IsRun(ls, ss) && ss[0] == Start(b, 0) && Ends(ls) == 1
      && Waiting(ss[|ls|], 14 + b.count, Pow2(14 + b.count), 0)
  {
    StartIsFull(b, 0);
    var s1, s2 := LentThenRepaid(Start(b, 0), 14 + b.count);
    ls, ss := RunBegins(Start(b, 0));
    ls, ss := RunExtends(ls, ss, LDeliver(1, [0], 0), s1);
    ls, ss := RunExtends(ls, ss, LEnd(9, 0), s2);
  }

  lemma LentThenRepaid(s0: Sys, k: nat) returns (s1: Sys, s2: Sys)
    requires Full(s0, k)
    ensures Step(LDeliver(1, [0], 0), s0, s1) && Step(LEnd(9, 0), s1, s2) && Waiting(s2, k, Pow2(k), 0)
  {
    assert At(s0, 0) == Buffer(0);
    s1 := Deliver(s0, 1, [0], 0);
    RingAfterDeliver(s0, k, 1, [0], 0);
    SizedAfterDeliver(s0, k, 1, [0], 0);
    s2 := RepaidAtOnce(s1, k);
  }

  lemma RepaidAtOnce(s: Sys, k: nat) returns (s': Sys)
    requires Sized(s, k) && Len(s) == Pow2(k) - 1 && s.pending != [] && s.pending[0] == Pend(1, 1, 0, [0])
    requires forall i {:trigger At(s, i)} | 0 <= i < Pow2(k) - 1 :: At(s, i) == Buffer(i + 1)
    ensures Step(LEnd(9, 0), s, s') && Waiting(s', k, Pow2(k), 0)
  {
    NothingReceived(s.buf, 0);
    s' := End(s, 9, 0);
    RingAfterRepay(s, s', k, 0);
  }

  lemma RunBegins(s: Sys) returns (ls: seq<Label>, ss: seq<Sys>)
    ensures ls == [] && ss == [s] && IsRun(ls, ss) && Ends(ls) == 0
  {
    ls, ss := [], [s];
  }

  lemma RunExtends(ls: seq<Label>, ss: seq<Sys>, l: Label, s: Sys) returns (ls': seq<Label>, ss': seq<Sys>)
    requires IsRun(ls, ss) && Step(l, ss[|ls|], s)
    ensures IsRun(ls', ss') && ss'[0] == ss[0] && ss'[|ls'|] == s && Ends(ls') == Ends(ls) + if l.LEnd? then 1 else 0
  {
    RunGoesOn(ls, ss, l, s);
    ls', ss' := ls + [l], ss + [s];
  }

  lemma SizedAfterDeliver(s: Sys, k: nat, receive: nat, bytes: seq<Byte>, low: nat)
    requires Sized(s, k) && CanDeliver(s, bytes, low)
    ensures Sized(Deliver(s, receive, bytes, low), k)
  {}

  lemma WaitsOn(s: Sys, k: nat, n: nat, j: nat)
    requires Waiting(s, k, n, j) && j + 1 < n
    ensures CanDeliver(s, [0], 0) && Waiting(Deliver(s, 2, [0], 0), k, n, j + 1)
  {
    assert At(s, 0) == Buffer(0 + 1 + j);
    RingAfterDeliver(s, k, 2, [0], 0);
    SizedAfterDeliver(s, k, 2, [0], 0);
    var s' := Deliver(s, 2, [0], 0);
    forall i | 0 <= i < n - (j + 1) - 1 ensures At(s', i) == Buffer(i + 1 + (j + 1)) {
      assert At(s, i + 1) == Buffer((i + 1) + 1 + j);
    }
  }

  /** After one end of a stream, bytes can go to the wrong connection: in this run receive 1 was
      completed with a byte 0, and is handed the byte 1 that the kernel wrote for receive 3 into the
      same buffer. */
  lemma EndOfStreamMixesBytes(b: Buf) returns (ls: seq<Label>, ss: seq<Sys>)
    requires b.count == 0
    ensures IsRun(ls, ss) && ss[0] == Start(b, 0) && Ends(ls) == 1
    ensures var h := ss[|ls|].handed; h != [] && h[|h| - 1] == Handed(1, [1], [0])
  {
    ls, ss := LentAndRepaid(b);
    var k := 14 + b.count;
    ls, ss := AllButOneLent(ls, ss, k, Pow2(k));
    var s := ss[|ls|];
    var s', l := WrittenOver(s, k, Pow2(k));
    ls, ss := RunExtends(ls, ss, l, s');
    ls, ss := RunExtends(ls, ss, LTake(0), Take(s', 0));
  }

  // Receives, until buffer 0 is all that is left in the ring.
  lemma AllButOneLent(ls0: seq<Label>, ss0: seq<Sys>, k: nat, n: nat) returns (ls: seq<Label>, ss: seq<Sys>)
    requires IsRun(ls0, ss0) && Waiting(ss0[|ls0|], k, n, 0)
    ensures IsRun(ls, ss) && ss[0] == ss0[0] && Ends(ls) == Ends(ls0) && Waiting(ss[|ls|], k, n, n - 1)
  {
    ls, ss := ls0, ss0;
    var j := 0;
    while j + 1 < n
      invariant j < n && IsRun(ls, ss) && ss[0] == ss0[0] && Ends(ls) == Ends(ls0) && Waiting(ss[|ls|], k, n, j)
    {
      ls, ss := OneMoreLent(ls, ss, k, n, j);
      j := j + 1;
    }
  }

  lemma OneMoreLent(ls0: seq<Label>, ss0: seq<Sys>, k: nat, n: nat, j: nat) returns (ls: seq<Label>, ss: seq<Sys>)
    requires IsRun(ls0, ss0) && Waiting(ss0[|ls0|], k, n, j) && j + 1 < n
    ensures IsRun(ls, ss) && ss[0] == ss0[0] && Ends(ls) == Ends(ls0) && Waiting(ss[|ls|], k, n, j + 1)
  {
    var s := ss0[|ls0|];
    WaitsOn(s, k, n, j);
    ls, ss := RunExtends(ls0, ss0, LDeliver(2, [0], 0), Deliver(s, 2, [0], 0));
  }

  lemma WrittenOver(s: Sys, k: nat, n: nat) returns (s': Sys, l: Label)
    requires n > 0 && Waiting(s, k, n, n - 1)
    ensures Step(l, s, s') && !l.LEnd? && CanTake(s', 0) && Take(s', 0).handed == s.handed + [Handed(1, [1], [0])]
  {
    assert At(s, 0) == Buffer(0);
    l, s' := LDeliver(3, [1], 0), Deliver(s, 3, [1], 0);
    RingAfterDeliver(s, k, 3, [1], 0);
    SizedAfterDeliver(s, k, 3, [1], 0);
    BufferIdIff(0, 0);
    assert s'.pending[0] == Pend(1, 1, 0, [0]);
    assert Slice(s'.buf, 0, 1) == [1];
  }

  // -- A run in which the tail comes round

  // All buffers are lent, and `e` streams have ended since.
  ghost predicate AllLent(s: Sys, k: nat, e: nat) {
    && Sized(s, k) && Len(s) == e % TAILS && multiset(Lent(s)) == multiset(Ids(Pow2(k)))
  }

  lemma LendAll(ls0: seq<Label>, ss0: seq<Sys>, k: nat) returns (ls: seq<Label>, ss: seq<Sys>)
    requires IsRun(ls0, ss0) && Inv(ss0[|ls0|], k)
    ensures IsRun(ls, ss) && ss[0] == ss0[0] && Ends(ls) == Ends(ls0) && AllLent(ss[|ls|], k, 0)
  {
    ls, ss := ls0, ss0;
    while Len(ss[|ls|]) > 0
      invariant IsRun(ls, ss) && ss[0] == ss0[0] && Ends(ls) == Ends(ls0) && Inv(ss[|ls|], k)
      decreases Len(ss[|ls|])
    {
      ls, ss := LendOne(ls, ss, k);
    }
    assert InRing(ss[|ls|]) == [];
  }

  lemma LendOne(ls0: seq<Label>, ss0: seq<Sys>, k: nat) returns (ls: seq<Label>, ss: seq<Sys>)
    requires IsRun(ls0, ss0) && Inv(ss0[|ls0|], k) && Len(ss0[|ls0|]) > 0
    ensures IsRun(ls, ss) && ss[0] == ss0[0] && Ends(ls) == Ends(ls0)
    ensures Inv(ss[|ls|], k) && Len(ss[|ls|]) < Len(ss0[|ls0|])
  {
    var s := ss0[|ls0|];
    assert At(s, 0) == Buffer(At(s, 0).bid);
    DeliverKeeps(s, k, 1, [0], 0);
    RingAfterDeliver(s, k, 1, [0], 0);
    ls, ss := RunExtends(ls0, ss0, LDeliver(1, [0], 0), Deliver(s, 1, [0], 0));
  }

  lemma EndOne(s: Sys, k: nat, e: nat)
    requires AllLent(s, k, e)
    ensures CanEnd(s, 0) && AllLent(End(s, 9, 0), k, e + 1)
  {
    NothingReceived(s.buf, 0);
    RepayLen(s, End(s, 9, 0), k, 0);
    assert Lent(End(s, 9, 0)) == Lent(s);
  }

  lemma EndMany(ls0: seq<Label>, ss0: seq<Sys>, k: nat, n: nat) returns (ls: seq<Label>, ss: seq<Sys>)
    requires IsRun(ls0, ss0) && AllLent(ss0[|ls0|], k, 0)
    ensures IsRun(ls, ss) && ss[0] == ss0[0] && Ends(ls) == Ends(ls0) + n && AllLent(ss[|ls|], k, n)
  {
    ls, ss := ls0, ss0;
    for e := 0 to n
      invariant IsRun(ls, ss) && ss[0] == ss0[0] && Ends(ls) == Ends(ls0) + e && AllLent(ss[|ls|], k, e)
    {
      EndOne(ss[|ls|], k, e);
      ls, ss := RunExtends(ls, ss, LEnd(9, 0), End(ss[|ls|], 9, 0));
    }
  }

  /** In this run all buffers are lent and then 65536 streams end: the tail is where it was, and every
      id is accounted for again. */
  lemma TailComesRound(b: Buf, res: int) returns (ls: seq<Label>, ss: seq<Sys>)
    requires res >= 0 && b.count < 2
    ensures IsRun(ls, ss) && ss[0] == Start(b, res) && Ends(ls) == TAILS
    ensures Ready(ss[|ls|].buf) && Conserved(ss[|ls|])
  {
    StartOk(b, res);
    ls, ss := RunBegins(Start(b, res));
    ls, ss := LendAll(ls, ss, 14 + b.count);
    ls, ss := EndMany(ls, ss, 14 + b.count, TAILS);
    assert InRing(ss[|ls|]) == [];
  }

  /** The entries of the ring that the next extension sets up stay apart exactly for the first, the
      second and the fourth. The third depends on the kernel's refusing it, as all after the fourth. */
  lemma ExtensionIff(b: Buf)
    ensures SlotsApart(N_BUFFERS * (b.count + 1)) <==> b.count in {0, 1, 3}
  {
    Pow16();
    Sizes();
    var n := N_BUFFERS * (b.count + 1);
    SlotsApartIff(n);
    if b.count == 2 && IsPow2(n) {
      var k: nat :| Pow2(k) == n;
      if k < 15 { Pow2Grows(k, 15); }
      if k > 16 { Pow2Grows(16, k); }
      assert false;
    }
  }
}
