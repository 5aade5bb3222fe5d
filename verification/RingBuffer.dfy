/** Masks of ring indices: bitwise and, on natural numbers. */
module Masks {
  import opened Arithmetic

  function Pow2(k: nat): (r: nat)
    ensures r > 0
  {
    if k == 0 then 1 else 2 * Pow2(k - 1)
  }

  ghost predicate IsPow2(n: nat) { exists k: nat :: Pow2(k) == n }

  function And(a: nat, b: nat): (r: nat)
    ensures r <= a && r <= b
  {
    if a == 0 || b == 0 then 0 else 2 * And(a / 2, b / 2) + if a % 2 == 1 && b % 2 == 1 then 1 else 0
  }

  // The low `k` bits of a number.
  function Low(a: nat, k: nat): nat { if k == 0 then 0 else 2 * Low(a / 2, k - 1) + a % 2 }

  lemma MaskIsMod(a: nat, k: nat)
    ensures And(a, Pow2(k) - 1) == a % Pow2(k)
  {
    MaskIsLow(a, k);
    LowIsMod(a, k);
  }

  lemma {:induction false} MaskIsLow(a: nat, k: nat)
    ensures And(a, Pow2(k) - 1) == Low(a, k)
    decreases k
  {
    if k > 0 {
      MaskIsLow(a / 2, k - 1);
      HalfMask(Pow2(k - 1));
      AndOdd(a, Pow2(k) - 1);
    }
  }

  lemma {:induction false} LowIsMod(a: nat, k: nat)
    ensures Low(a, k) == a % Pow2(k)
    decreases k
  {
    if k > 0 {
      LowIsMod(a / 2, k - 1);
      HalfMod(a, Pow2(k - 1));
    }
  }

  lemma HalfMask(p: nat)
    requires p > 0
    ensures (2 * p - 1) / 2 == p - 1 && (2 * p - 1) % 2 == 1
  {}

  // And with an odd mask keeps the last bit and goes on with the halves.
  lemma AndOdd(a: nat, m: nat)
    requires m % 2 == 1
    ensures And(a, m) == 2 * And(a / 2, m / 2) + a % 2
  {}

  lemma HalfMod(a: nat, p: nat)
    requires p > 0
    ensures a % (2 * p) == 2 * (a / 2 % p) + a % 2
  {
    var q, m := a / 2 / p, a / 2 % p;
    assert a == 2 * (q * p + m) + a % 2;
    assert a == q * (2 * p) + (2 * m + a % 2);
    ModOf(a, 2 * p, q, 2 * m + a % 2);
  }

  lemma ModTwice(x: nat, q: nat, n: nat)
    requires q > 0 && n > 0
    ensures (q * n) > 0 && x % (q * n) % n == x % n
  {
    Multiple(q, n);
    var t := q * n;
    var d, m := x / t, x % t;
    assert x == d * t + m && d * t == (d * q) * n;
    assert (d * q + m / n) * n == (d * q) * n + (m / n) * n;
    ModOf(x, n, d * q + m / n, m % n);
  }

  lemma DoublePow2(n: nat)
    ensures IsPow2(n) ==> IsPow2(2 * n)
  {
    if IsPow2(n) {
      var k: nat :| Pow2(k) == n;
      assert Pow2(k + 1) == 2 * n;
    }
  }

  // A mask with a zero bit below its top one sends some smaller index to 0, as it does 0.
  lemma {:induction false} HoleCollides(m: nat) returns (p: nat)
    requires !IsPow2(m + 1)
    ensures 0 < p <= m && And(p, m) == 0
  {
    assert Pow2(0) == 1;
    if m % 2 == 0 {
      p := 1;
      assert And(0, m / 2) == 0;
    } else {
      DoublePow2(m / 2 + 1);
      var q := HoleCollides(m / 2);
      p := 2 * q;
    }
  }

  lemma {:induction false} Pow2Divides(k: nat, j: nat) returns (q: nat)
    requires k <= j
    ensures q > 0 && Pow2(j) == q * Pow2(k)
    decreases j
  {
    if k == j { q := 1; } else {
      var r := Pow2Divides(k, j - 1);
      q := 2 * r;
    }
  }

  lemma {:induction false} Pow2Grows(k: nat, j: nat)
    requires k < j
    ensures Pow2(k) < Pow2(j)
    decreases j
  {
    if k < j - 1 { Pow2Grows(k, j - 1); }
  }

  const TAILS := 0x10000  // tails count in 16 bits

  lemma Pow16()
    ensures Pow2(16) == TAILS
  {
    assert Pow2(4) == 16;
    assert Pow2(8) == 16 * Pow2(4);
    assert Pow2(12) == 16 * Pow2(8);
    assert Pow2(16) == 16 * Pow2(12);
  }

  // How far a 16-bit tail is ahead of a 16-bit head.
  function Gap(head: nat, tail: nat): (r: nat) {
    if head <= tail then tail - head else if head <= tail + TAILS then tail + TAILS - head else 0
  }

  lemma GapMoves(head: nat, tail: nat)
    requires head < TAILS && tail < TAILS
    ensures (head + Gap(head, tail)) % TAILS == tail
    ensures Gap(head, tail) > 0 ==> Gap((head + 1) % TAILS, tail) == Gap(head, tail) - 1
    ensures Gap(head, (tail + 1) % TAILS) == (Gap(head, tail) + 1) % TAILS
  {}

  // The slot of the entry `i` places after the tail, whose count wraps at 16 bits.
  function Slot(tail: nat, i: nat, mask: nat): (r: nat)
    ensures r <= mask
  {
    And((tail + i) % TAILS, mask)
  }

  lemma SlotIsMod(tail: nat, i: nat, k: nat)
    requires k <= 16
    ensures Slot(tail, i, Pow2(k) - 1) == (tail + i) % Pow2(k)
  {
    Pow16();
    var q := Pow2Divides(k, 16);
    MaskIsMod((tail + i) % TAILS, k);
    ModTwice(tail + i, q, Pow2(k));
  }

  // No two of the `n` entries after any tail share a slot.
  ghost predicate SlotsApart(n: nat)
    requires n > 0
  {
    forall tail: nat, i: nat, j: nat {:trigger Slot(tail, i, n - 1), Slot(tail, j, n - 1)} |
      tail < TAILS && i < j < n :: Slot(tail, i, n - 1) != Slot(tail, j, n - 1)
  }

  lemma PowerSlotsApart(tail: nat, k: nat, i: nat, j: nat)
    requires k <= 16 && i < j < Pow2(k)
    ensures Slot(tail, i, Pow2(k) - 1) != Slot(tail, j, Pow2(k) - 1)
  {
    SlotIsMod(tail, i, k);
    SlotIsMod(tail, j, k);
    CloseMods(tail + i, tail + j, Pow2(k));
  }

  // Two of the first entries share a slot.
  lemma SlotsCollide(n: nat) returns (i: nat, j: nat)
    requires n > 0 && (n > TAILS || !IsPow2(n))
    ensures i < j < n && Slot(0, i, n - 1) == Slot(0, j, n - 1)
  {
    i := 0;
    if n > TAILS {
      j := TAILS;
    } else {
      j := HoleCollides(n - 1);
      FromZero(0, n - 1);
      FromZero(j, n - 1);
      assert And(0, n - 1) == 0;
    }
  }

  lemma SmallPower(n: nat) returns (k: nat)
    requires IsPow2(n) && n <= TAILS
    ensures k <= 16 && Pow2(k) == n
  {
    k :| Pow2(k) == n;
    Pow16();
    if k > 16 { Pow2Grows(16, k); }
  }

  /** The entries of a ring never collide, wherever the 16-bit tail is, exactly when their number is a
      power of two that 16 bits can count. */
  lemma SlotsApartIff(n: nat)
    requires 0 < n
    ensures SlotsApart(n) <==> IsPow2(n) && n <= TAILS
  {
    if IsPow2(n) && n <= TAILS {
      var k := SmallPower(n);
      forall tail: nat, i: nat, j: nat {:trigger Slot(tail, i, n - 1), Slot(tail, j, n - 1)} | tail < TAILS && i < j < n
        ensures Slot(tail, i, n - 1) != Slot(tail, j, n - 1)
      {
        PowerSlotsApart(tail, k, i, j);
      }
    } else {
      var i, j := SlotsCollide(n);
    }
  }

  lemma FromZero(i: nat, mask: nat)
    requires i < TAILS
    ensures Slot(0, i, mask) == And(i, mask)
  {
    var x := (0 + i) % TAILS;
    ModOf(i, TAILS, 0, i);
    assert x == i;
  }

  lemma CloseMods(a: nat, b: nat, n: nat)
    requires 0 < n && a < b < a + n
    ensures a % n != b % n
  {
    var d := b / n - a / n;
    assert b - a == d * n + (b % n - a % n);
    Multiple(d, n);
  }
}

/** RingBuffer: the buffers lent to the kernel, and how they come back. */
module BufferRing {
  import opened Common
  import opened Masks

  type Byte = bv8

  const BUFFER_RING_SIZE := 512
  const N_BUFFERS := 16384
  const ENOBUFS := 105

  // An entry of the ring: where a buffer is, how long it is, and its id.
  datatype Desc = Desc(offset: nat, len: nat, bid: nat)

  datatype Shared = Shared(slots: seq<Desc>, tail: nat)
  datatype Option<T> = None | Some(value: T)

  // br is None when there is no ring, before the first setup and after one that failed.
  datatype Buf = Buf(count: nat, mask: nat, data: seq<Byte>, br: Option<Shared>)

  // io_uring_buf_ring_add: fills the slot `ahead` of the tail; the index never leaves the ring as the
  // mask is one less than its length.
  function Add(s: Shared, d: Desc, mask: nat, ahead: nat): Shared
    requires mask < |s.slots|
  {
    s.(slots := s.slots[And(s.tail + ahead, mask) := d])
  }

  // io_uring_buf_ring_advance, in 16 bits.
  function Advance(s: Shared, n: nat): Shared { s.(tail := (s.tail + n) % TAILS) }

  function Buffer(bid: nat): Desc { Desc(bid * BUFFER_RING_SIZE, BUFFER_RING_SIZE, bid) }

  function Repaid(b: Buf, bid: nat): Buf
    requires b.br.Some? && b.mask < |b.br.value.slots|
  {
    b.(br := Some(Advance(Add(b.br.value, Buffer(bid), b.mask, 0), 1)))
  }

  predicate InData(b: Buf, bid: nat, bytes: nat) { bid * BUFFER_RING_SIZE + bytes <= |b.data| }

  function Slice(b: Buf, bid: nat, bytes: nat): seq<Byte>
    requires InData(b, bid, bytes)
  {
    b.data[bid * BUFFER_RING_SIZE..bid * BUFFER_RING_SIZE + bytes]
  }

  // The first `i` buffers added to an empty ring of `n` slots.
  function Filled(n: nat, mask: nat, i: nat): Shared
    requires mask < n
    ensures |Filled(n, mask, i).slots| == n && Filled(n, mask, i).tail == 0
  {
    if i == 0 then Shared(seq(n, _ => Desc(0, 0, 0)), 0) else Add(Filled(n, mask, i - 1), Buffer(i - 1), mask, i - 1)
  }

  function Resized(data: seq<Byte>, n: nat): seq<Byte> {
    if n <= |data| then data[..n] else data + seq(n - |data|, _ => 0 as bv8)
  }

  // `res` is what setting up the ring reports: a negative number is a failure, and then an exception
  // is thrown. The old ring is gone either way.
  function Extended(b: Buf, res: int): Buf {
    var n := N_BUFFERS * (b.count + 1);
    Buf(b.count + 1, n - 1, Resized(b.data, n * BUFFER_RING_SIZE),
        if res < 0 then None else Some(Advance(Filled(n, n - 1, n), n)))
  }

  // cqe_flags_ is a 32-bit signed copy of the completion's flags; >> of it is arithmetic.
  function AsInt32(flags: nat): int {
    if flags % 0x1_0000_0000 < 0x8000_0000 then flags % 0x1_0000_0000 else flags % 0x1_0000_0000 - 0x1_0000_0000
  }
  function BufferIdOf(flags: int): int { flags / 0x10000 }

  /** The id found in the flags is the id the kernel put there exactly when it fits in 15 bits. */
  lemma BufferIdIff(bid: nat, low: nat)
    requires bid < 0x10000 && low < 0x10000
    ensures BufferIdOf(AsInt32(bid * 0x10000 + low)) == bid <==> bid < 0x8000
  {}

  datatype ExtendResult = ExtendOk | ExtendError

  // ring_buf_receive: an extension for every completion without a buffer, then the data.
  datatype Received = Received(buf: Buf, bytes: seq<Byte>, res: int) | Thrown(b: Buf) | OutOfRange

  function Receive(b: Buf, cs: seq<Completion>, setups: seq<int>): Received
    requires |setups| >= |cs| > 0 && cs[|cs| - 1].res != -ENOBUFS
    decreases |cs|
  {
    if cs[0].res < 0 && cs[0].res != -ENOBUFS then Thrown(b)
    else if cs[0].res == -ENOBUFS then
      var b1 := Extended(b, setups[0]);
      if setups[0] < 0 then Thrown(b1) else Receive(b1, cs[1..], setups[1..])
    else
      var bid := BufferIdOf(AsInt32(cs[0].flags));
      if bid < 0 || !InData(b, bid, cs[0].res) || b.br.None? || b.mask >= |b.br.value.slots| then OutOfRange
      else Received(Repaid(b, bid), Slice(b, bid, cs[0].res), cs[0].res)
  }

  // -- Receives that find no buffer

  // A ring set up for `count` times N_BUFFERS buffers, all of them added.
  ghost predicate SetUp(b: Buf, count: nat) {
    var n := N_BUFFERS * count;
    && b.count == count && b.mask + 1 == n && |b.data| == n * BUFFER_RING_SIZE
    && b.br.Some? && |b.br.value.slots| == n && b.br.value.tail == n % TAILS
  }

  // The memory of so many extensions has been grown: what was there is there, and what is new is zero.
  ghost predicate Grown(data: seq<Byte>, count: nat, data': seq<Byte>) {
    |data| <= N_BUFFERS * count * BUFFER_RING_SIZE ==>
      |data| <= |data'| && forall k | 0 <= k < |data'| :: data'[k] == if k < |data| then data[k] else 0
  }

  // Exactly the first `m` completions found no buffer.
  predicate NoBuffers(cs: seq<Completion>, m: nat) {
    m < |cs| && cs[m].res != -ENOBUFS && forall i | 0 <= i < m :: cs[i].res == -ENOBUFS
  }

  lemma ExtendedIsSetUp(b: Buf, res: int)
    requires res >= 0
    ensures SetUp(Extended(b, res), b.count + 1) && Grown(b.data, b.count, Extended(b, res).data)
  {
    var n := N_BUFFERS * (b.count + 1);
    assert |Filled(n, n - 1, n).slots| == n && Filled(n, n - 1, n).tail == 0;
    assert n == N_BUFFERS * b.count + N_BUFFERS;
  }

  /** Every completion without a buffer extends the ring once before the receive is tried again: after
      `m` of them whose setups succeed it has `m` more extensions, and the next completion is taken
      as it would be on that ring. */
  lemma {:induction false} RetriesExtend(b: Buf, cs: seq<Completion>, setups: seq<int>, m: nat) returns (x: Buf, y: Buf)
    requires |setups| >= |cs| > 0 && cs[|cs| - 1].res != -ENOBUFS && NoBuffers(cs, m)
    requires forall i | 0 <= i < m :: setups[i] >= 0
    ensures x.count == b.count + m
    ensures if m == 0 then x == b else SetUp(x, b.count + m) && Grown(b.data, b.count, x.data)
    ensures m > 0 ==> y.count == b.count + m - 1 && x == Extended(y, setups[m - 1])
    ensures Receive(b, cs, setups) == Receive(x, cs[m..], setups[m..])
    decreases m
  {
    x, y := b, b;
    if m > 0 {
      ExtendedIsSetUp(b, setups[0]);
      x, y := RetriesExtend(Extended(b, setups[0]), cs[1..], setups[1..], m - 1);
      if m == 1 { y := b; }
      assert cs[1..][m - 1..] == cs[m..] && setups[1..][m - 1..] == setups[m..];
    }
  }

  /** A receive throws exactly when setting up the ring fails for one of the completions that found no
      buffer, or a completion reports another error. In the first case there is no ring. */
  lemma {:induction false} ReceiveThrowsIff(b: Buf, cs: seq<Completion>, setups: seq<int>, m: nat)
    requires |setups| >= |cs| > 0 && cs[|cs| - 1].res != -ENOBUFS && NoBuffers(cs, m)
    ensures Receive(b, cs, setups).Thrown? <==> (exists i | 0 <= i < m :: setups[i] < 0) || cs[m].res < 0
    ensures Receive(b, cs, setups).Thrown? && (exists i | 0 <= i < m :: setups[i] < 0) ==>
      Receive(b, cs, setups).b.br.None?
    ensures Receive(b, cs, setups).Thrown? && !(exists i | 0 <= i < m :: setups[i] < 0) ==>
      if m == 0 then Receive(b, cs, setups).b == b else SetUp(Receive(b, cs, setups).b, b.count + m)
    decreases m
  {
    if m > 0 {
      if setups[0] >= 0 { ExtendedIsSetUp(b, setups[0]); }
      ReceiveThrowsIff(Extended(b, setups[0]), cs[1..], setups[1..], m - 1);
      forall i | 0 < i < m ensures setups[i] == setups[1..][i - 1] {}
      if setups[0] >= 0 && exists i | 0 <= i < m :: setups[i] < 0 {
        var i :| 0 <= i < m && setups[i] < 0;
        assert setups[1..][i - 1] < 0;
      }
    }
  }

  /** Otherwise it hands over the bytes of the buffer named in the flags, and the count with them. */
  lemma ReceiveHandsOver(b: Buf, cs: seq<Completion>, setups: seq<int>, m: nat, bid: nat, low: nat)
    requires |setups| >= |cs| > 0 && cs[|cs| - 1].res != -ENOBUFS && NoBuffers(cs, m)
    requires cs[m] == Completion(cs[m].res, bid * 0x10000 + low) && bid < 0x8000 && low < 0x10000
    requires Receive(b, cs, setups).Received?
    ensures var d := Receive(b, cs, setups);
      && d.res == cs[m].res == |d.bytes| && d.buf.count == b.count + m
      && var from := bid * BUFFER_RING_SIZE;
      && from + d.res <= |d.buf.data| && d.bytes == d.buf.data[from..from + d.res]
      && (if m == 0 then d.buf.data == b.data else Grown(b.data, b.count, d.buf.data))
  {
    ReceiveThrowsIff(b, cs, setups, m);
    var x, y := RetriesExtend(b, cs, setups, m);
    BufferIdIff(bid, low);
    assert cs[m..][0] == cs[m];
  }

  class RingBuffer {
    var bufCount: nat
    var mask: nat
    var buffer: seq<Byte>
    var br: array?<Desc>
    var tail: nat

    function V(): Buf
      reads this, br
    {
      Buf(bufCount, mask, buffer, if br == null then None else Some(Shared(br[..], tail)))
    }

    method CopyData(bid: nat, bytes: nat) returns (output: seq<Byte>)
      requires InData(V(), bid, bytes)
      ensures output == Slice(V(), bid, bytes)
    {
      var offset := bid * BUFFER_RING_SIZE;
      output := buffer[offset..offset + bytes];
    }

    method Repay(bid: nat)
      requires br != null && mask < br.Length
      modifies `tail, br
      ensures V() == Repaid(old(V()), bid)
    {
      br[And(tail, mask)] := Desc(bid * BUFFER_RING_SIZE, BUFFER_RING_SIZE, bid);
      tail := (tail + 1) % TAILS;
    }

    method ExtendBuffer(res: int) returns (r: ExtendResult)
      modifies this
      ensures V() == Extended(old(V()), res)
      ensures r.ExtendOk? <==> res >= 0
      ensures br != old(br) ==> fresh(br) || br == null
    {
      if bufCount > 0 { Release(); }
      bufCount := bufCount + 1;
      var n := N_BUFFERS * bufCount;
      mask := n - 1;
      buffer := Resized(buffer, n * BUFFER_RING_SIZE);
      if res < 0 {
        br := null;
        return ExtendError;
      }
      br := new Desc[n](_ => Desc(0, 0, 0));
      tail := 0;
      assert br[..] == seq(n, _ => Desc(0, 0, 0));
      Fill();
      tail := (tail + n) % TAILS;
      r := ExtendOk;
    }

    // Adds every buffer to a ring that has just been set up.
    method Fill()
      requires br != null && mask + 1 == br.Length && tail == 0 && Shared(br[..], 0) == Filled(br.Length, mask, 0)
      modifies br
      ensures Shared(br[..], tail) == Filled(br.Length, mask, br.Length)
    {
      var i, ptr := 0, 0;
      while i < br.Length
        invariant i <= br.Length && ptr == i * BUFFER_RING_SIZE
        invariant Shared(br[..], tail) == Filled(br.Length, mask, i)
      {
        br[And(tail + i, mask)] := Desc(ptr, BUFFER_RING_SIZE, i);
        ptr := ptr + BUFFER_RING_SIZE;
        i := i + 1;
      }
    }

    method Release()
      modifies `br
      ensures br == null
    {
      br := null;
    }

    // ring_buf_receive of a connection, given the completions its receives get and what the kernel
    // reports when the ring is set up anew.
    method RingBufReceive(cs: seq<Completion>, setups: seq<int>)
      returns (receiveBuffer: seq<Byte>, res: int, thrown: bool)
      requires |setups| >= |cs| > 0 && cs[|cs| - 1].res != -ENOBUFS && !Receive(V(), cs, setups).OutOfRange?
      modifies this, br
      ensures thrown <==> Receive(old(V()), cs, setups).Thrown?
      ensures thrown ==> V() == Receive(old(V()), cs, setups).b
      ensures !thrown ==> Received(V(), receiveBuffer, res) == Receive(old(V()), cs, setups)
    {
      ghost var whole := Receive(V(), cs, setups);
      receiveBuffer, thrown := [], false;
      var i := 0;
      res := cs[i].res;
      if res < 0 && res != -ENOBUFS { thrown := true; return; }
      while res == -ENOBUFS
        invariant i < |cs| && res == cs[i].res && !thrown && (res >= 0 || res == -ENOBUFS)
        invariant br == old(br) || br == null || fresh(br)
        invariant Receive(V(), cs[i..], setups[i..]) == whole
        decreases |cs| - i
      {
        var extended := ExtendBuffer(setups[i]);
        assert cs[i..][1..] == cs[i + 1..] && setups[i..][1..] == setups[i + 1..];
        if extended.ExtendError? { thrown := true; return; }
        i := i + 1;
        res := cs[i].res;
        if res < 0 && res != -ENOBUFS { thrown := true; return; }
      }
      var bid := BufferIdOf(AsInt32(cs[i].flags));
      receiveBuffer := CopyData(bid, res);
      Repay(bid);
    }
  }
}
