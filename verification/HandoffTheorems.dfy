/** What the hand-off protocol promises, of every state it can reach. */
module HandoffTheorems {
  import opened Common
  import opened Messages
  import opened Connection
  import opened UringRing
  import opened Handoff
  import opened HandoffInvariant
  import opened HandoffSteps
  import opened HandoffKernel
  import opened HandoffHandle
  import opened HandoffRuns
  import opened HandoffLives
  import opened HandoffLeaks

  predicate KindMatches(b: Branch, c: Cell) {
    match b
    case TaskBranch => c.TaskMessage?
    case ConnBranch => c.ConnMessage?
    case MultiBranch => c.MultiMessage?
    case TokenBranch => c.Token?
    case NullBranch => false
  }

  /** Every queued completion points at live data of the kind it is dispatched as, so handling it
      neither uses nor deletes anything that is gone. */
  lemma HandlingIsSafe(w: World, alloc: Alloc, r: nat, id: OpId, c: ConnId)
    requires Reachable(w) && r < |w.rings| && w.rings[r].cq != [] && id !in w.ops && c !in w.conns
    ensures forall i | 0 <= i < |w.rings[r].cq| ::
      w.rings[r].cq[i].data in w.mem && KindMatches(Dispatch(w.rings[r].cq[i]), w.mem[w.rings[r].cq[i].data])
    ensures HandleRequest(alloc, w.mem, w.rings[r].node, w.rings[r].cq[0]).Handled?
  {
    ReachableIsFull(w);
    HandlingNeverFails(w, alloc, r, id, c);
    assert QueueOk(w, r);
    forall i | 0 <= i < |w.rings[r].cq|
      ensures w.rings[r].cq[i].data in w.mem && KindMatches(Dispatch(w.rings[r].cq[i]), w.mem[w.rings[r].cq[i].data])
    {
      assert EntryOk(w, r, w.rings[r].cq[i]);
    }
  }

  /** When a worker handles a connection's task message, its map has the main slot, and has for it a
      slot of its own that is open for the socket the main slot is open for. The connection made
      there will close that slot, and no other. */
  lemma LookupCorrectness(w: World, alloc: Alloc, r: nat, id: OpId, c: ConnId)
    requires Reachable(w) && GoodAlloc(alloc) && CanHandle(w, alloc, r, id, c) && Dispatch(w.rings[r].cq[0]).ConnBranch?
    ensures var a, m := w.rings[r].cq[0].data, w.rings[r].node.directMap;
      && a in w.mem && w.mem[a].ConnMessage? && w.mem[a].slot in m
      && var main, here := Key(0, w.mem[a].slot), Key(r, m[w.mem[a].slot]);
      && r >= 1 && w.Open(main) && w.Open(here) && w.SockAt(here) == w.SockAt(main)
      && var w' := HandleHead(w, alloc, r, id, c);
      && c in w'.conns && Responsible(w'.conns[c]) == here && w'.Open(here) && w'.SockAt(here) == w.SockAt(main)
      && w'.rings[r].node.directMap == m - {main.slot}
  {
    ReachableIsFull(w);
    HandlingIsSafe(w, alloc, r, id, c);
    HeadIs(w, r);
    LookupIsCorrect(w, r);
    HandleIsConn(w, alloc, r, id, c);
  }

  // A part of the hand-off of main slot `s` that has still to be done.
  ghost predicate HandingOff(w: World, a: Addr, s: int) { a in w.mem && w.mem[a].ConnMessage? && w.mem[a].slot == s }

  /** At most one hand-off of a main slot is in flight, and while it is the slot is open and neither
      owned nor about to be closed. */
  lemma OneHandoffPerSlot(w: World, a: Addr, b: Addr, s: int)
    requires Reachable(w) && HandingOff(w, a, s) && HandingOff(w, b, s)
    ensures a == b && w.Open(Key(0, s)) && SendingAt(w, s)
    ensures forall c | c in w.conns :: Responsible(w.conns[c]) != Key(0, s)
    ensures forall id | id in w.ops :: w.ops[id] != Close(Key(0, s))
  {
    ReachableIsFull(w);
    AboutCell(w, a);
    AboutCell(w, b);
    HeldIsOpen(w, Key(0, s));
    forall c | c in w.conns ensures Responsible(w.conns[c]) != Key(0, s) { assert ConnOk(w, c, w.conns[c]); }
    forall id | id in w.ops ensures w.ops[id] != Close(Key(0, s)) { AboutOp(w, id); }
  }

  /** From accept to the end of its last connection a socket has an open slot, held by a connection
      or a hand-off and not asked to be closed; and whatever slot is asked to be closed is open for a
      dead socket, or is a main slot whose socket a worker holds a slot for. */
  lemma NoPrematureClose(w: World, k: Sock, id: OpId)
    requires Reachable(w)
    ensures k in w.past.home && k !in w.past.dead ==>
      var key := w.past.home[k];
      w.Open(key) && w.SockAt(key) == k && forall o | o in w.ops :: w.ops[o] != Close(key)
    ensures id in w.ops && w.ops[id].Close? && w.ops[id].key.slot >= 0 ==>
      var key := w.ops[id].key;
      && w.Open(key)
      && (w.SockAt(key) in w.past.dead
          || (key.ring == 0 && w.SockAt(key) in w.past.home && w.past.home[w.SockAt(key)].ring >= 1
             && Live(w, w.SockAt(key))))
  {
    ReachableIsFull(w);
    if k in w.past.home && k !in w.past.dead {
      var key := w.past.home[k];
      assert Live(w, k);
      forall o | o in w.ops ensures w.ops[o] != Close(key) { AboutOp(w, o); HeldIsOpen(w, key); }
    }
    if id in w.ops && w.ops[id].Close? && w.ops[id].key.slot >= 0 {
      AboutOp(w, id);
      HeldIsOpen(w, w.ops[id].key);
      assert Alone(w, w.ops[id].key);
      if w.SockAt(w.ops[id].key) !in w.past.dead { assert Live(w, w.SockAt(w.ops[id].key)); }
    }
  }

  // The main ring handles the release notice of the slot that is open for socket `k`.
  ghost predicate HandlesRelease(w: World, l: Label, k: Sock) {
    && l.LHandle? && l.r < |w.rings| && w.rings[l.r].cq != []
    && var e := w.rings[l.r].cq[0];
    && e.data in w.mem && w.mem[e.data].Token? && w.mem[e.data].op.MainRingCloseDirectSocket?
    && w.Open(Key(0, e.res)) && w.SockAt(Key(0, e.res)) == k
  }

  /** A socket's main slot is closed exactly once after its release notice has been handled: no close
      was issued before, one is issued then, and none is issued later in the run. */
  lemma ReleasedOnce(ls: seq<Label>, ws: seq<World>, i: nat, j: nat, k: Sock)
    requires IsRun(ls, ws) && i < j <= |ls| && HandlesRelease(ws[i], ls[i], k)
    ensures ws[i].past.closes[(0, k)] == 0 && ws[j].past.closes[(0, k)] == 1
  {
    var w, l := ws[i], ls[i];
    assert StepOf(ls, ws, i);
    RunIsFull(ls, ws, i);
    HeadIs(w, l.r);
    HandleIsRelease(w, l.alloc, l.r, l.id, l.c);
    assert CloseOk(w, Key(0, w.rings[l.r].cq[0].res));
    ClosesGrow(ls, ws, i + 1, j, (0, k));
    RunIsFull(ls, ws, j);
    assert CountOk(ws[j], 0, k);
  }

  lemma {:induction false} ClosesGrow(ls: seq<Label>, ws: seq<World>, i: nat, j: nat, p: (nat, Sock))
    requires IsRun(ls, ws) && i <= j <= |ls|
    ensures ws[i].past.closes[p] <= ws[j].past.closes[p]
    decreases j
  {
    if i < j {
      ClosesGrow(ls, ws, i, j - 1, p);
      StepCloses(ls, ws, j - 1, p);
    }
  }

  lemma StepCloses(ls: seq<Label>, ws: seq<World>, i: nat, p: (nat, Sock))
    requires IsRun(ls, ws) && i < |ls|
    ensures ws[i].past.closes[p] <= ws[i + 1].past.closes[p]
  {
    assert StepOf(ls, ws, i);
  }

  /** No ring closes the slot of a socket twice, and no slot is asked to be closed by two operations. */
  lemma ClosedAtMostOnce(w: World, r: nat, k: Sock, id: OpId, id2: OpId)
    requires Reachable(w)
    ensures w.past.closes[(r, k)] <= 1
    ensures id in w.ops && id2 in w.ops && w.ops[id].Close? && w.ops[id] == w.ops[id2] && w.ops[id].key.slot >= 0 ==>
      id == id2
  {
    ReachableIsFull(w);
    assert CountOk(w, r, k);
    if id in w.ops { AboutOp(w, id); }
    if id2 in w.ops { AboutOp(w, id2); }
  }

  /** No two connections will close the same slot, and the slot a connection will close is open for a
      live socket whose home it is. */
  lemma LinearOwnership(w: World, c: ConnId, d: ConnId)
    requires Reachable(w) && c in w.conns && d in w.conns && Responsible(w.conns[c]).slot >= 0
    ensures c != d ==> Responsible(w.conns[d]) != Responsible(w.conns[c])
    ensures AtHome(w, Responsible(w.conns[c]))
  {
    ReachableIsFull(w);
    OwnedHome(w, c);
    if c != d { OwnersApart(w, c, d); }
  }

  // The kernel has nothing left to do and no completion is waiting.
  predicate Drained(w: World) { w.ops == map[] && forall r | 0 <= r < |w.rings| :: w.rings[r].cq == [] }

  /** When all is drained no message is left in memory, only tokens in the frames of awaiters; every
      task sent has arrived; no worker's map has an entry; and every open slot is one that a live
      connection will close, or one whose connection was assigned over earlier in the run. */
  lemma MessageConservation(ls: seq<Label>, ws: seq<World>, j: nat)
    requires IsRun(ls, ws) && j <= |ls| && Drained(ws[j])
    ensures var w := ws[j];
      && (forall a | a in w.mem :: w.mem[a].Token? && Awaited(w.mem[a].op) && CanEndIo(w, a))
      && w.past.spawned.Keys == w.past.arrived
      && (forall r | 0 <= r < |w.rings| :: w.rings[r].node.directMap == map[])
      && forall k: Key | w.Open(k) :: WillBeClosed(w, k) || Lost(ls, ws, j, k)
  {
    var w := ws[j];
    RunIsFull(ls, ws, j);
    forall a | a in w.mem ensures w.mem[a].Token? && Awaited(w.mem[a].op) && CanEndIo(w, a) { AboutCell(w, a); }
    forall t | t in w.past.spawned ensures t in w.past.arrived { assert SpawnOk(w, t); }
    forall k: Key | w.Open(k) ensures WillBeClosed(w, k) || Lost(ls, ws, j, k) {
      DrainedSlot(w, k);
      LostIff(ls, ws, j, k);
    }
    forall r | 0 <= r < |w.rings| ensures w.rings[r].node.directMap == map[] { NoEntryLeft(w, r); }
  }

  ghost predicate WillBeClosed(w: World, k: Key) { exists c | c in w.conns :: Responsible(w.conns[c]) == k }

  lemma DrainedSlot(w: World, k: Key)
    requires Inv(w) && Drained(w) && w.Open(k)
    ensures WillBeClosed(w, k) || LeakedAt(w, k)
  {
    HeldIsOpen(w, k);
    NothingSent(w, k.slot);
    match w.past.hold[k]
    case Arriving(s) => NothingSent(w, s);
    case Releasing(token) => AboutCell(w, token);
    case _ =>
  }

  lemma NoEntryLeft(w: World, r: nat)
    requires Inv(w) && Drained(w) && r < |w.rings|
    ensures w.rings[r].node.directMap == map[]
  {
    var m := w.rings[r].node.directMap;
    forall s ensures s !in m { NoEntryLeftAt(w, r, s); }
  }

  lemma NoEntryLeftAt(w: World, r: nat, s: int)
    requires Inv(w) && Drained(w) && r < |w.rings|
    ensures s !in w.rings[r].node.directMap
  {
    var m := w.rings[r].node.directMap;
    assert s in m ==> MapEntryOk(w, r, s, m[s]);
    NothingSent(w, s);
  }

  lemma NothingSent(w: World, s: int)
    requires Inv(w) && Drained(w)
    ensures !SendingAt(w, s)
  {
    if SendingAt(w, s) {
      HeldIsOpen(w, Key(0, s));
      AboutCell(w, TransferAt(w, s).helper);
      assert false;
    }
  }

  // The message of a task is on its way to this ring, or in its queue.
  ghost predicate OnItsWay(w: World, a: Addr, r: nat) {
    || (exists id | id in w.ops :: w.ops[id].Post? && w.ops[id].ring == r && w.ops[id].cqe.data == a)
    || InQueueAt(w, r, a)
  }

  /** A task given to parallel_spawn is on one ring, the one picked, and there once, when its message
      has been handled; until then it is on none and its message is on its way to that ring. */
  lemma ExactlyOnceSpawn(w: World, t: TaskId)
    requires Reachable(w) && t in w.past.spawned
    ensures forall r | 0 <= r < |w.rings| ::
      Copies(w.rings[r].node.peer, t) == if t in w.past.arrived && r == w.past.spawned[t].ring then 1 else 0
    ensures t !in w.past.arrived ==> OnItsWay(w, w.past.spawned[t].msg, w.past.spawned[t].ring)
  {
    ReachableIsFull(w);
    assert SpawnOk(w, t);
    if t !in w.past.arrived {
      var a := w.past.spawned[t].msg;
      AboutCell(w, a);
      if w.past.loc[a].WithOp? {
        assert OpOk(w, w.past.loc[a].op, w.ops[w.past.loc[a].op]);
        assert w.ops[w.past.loc[a].op].cqe.data == a;
      } else {
        var q := w.past.loc[a].ring;
        var i :| 0 <= i < |w.rings[q].cq| && w.rings[q].cq[i].data == a;
        assert QueueOk(w, q);
        assert EntryOk(w, q, w.rings[q].cq[i]);
      }
    }
  }
}
