/** The two messages of a transfer, posted by the kernel, keep the invariant. */
module HandoffTransfers {
  import opened Common
  import opened Messages
  import opened Connection
  import opened UringRing
  import opened Handoff
  import opened HandoffInvariant
  import opened HandoffFrame
  import opened HandoffOthers
  import opened HandoffSteps
  import opened HandoffKernel

  // A step that only concerns the transfer of main slot `s`.
  ghost predicate TransferStep(w: World, w': World, x: Scope, s: int) {
    && SendingAt(w, s) && ScopeOf(w, x, s) && Apart(w, w', x) && Tidy(w')
    && (forall c | c in x.conns :: c !in w.conns) && (forall c | c in w'.conns && c !in w.conns :: c in x.conns)
    && (forall r | 0 <= r < |w.rings| :: w'.rings[r].node.directMap.Keys <= w.rings[r].node.directMap.Keys + {s})
  }

  // What such a step has to show itself.

  ghost predicate TransferHolders(w: World, w': World, x: Scope, s: int) {
    && (forall k | k in w'.past.hold && (k !in w.past.hold || k == Key(0, s) || w.past.hold[k] == Arriving(s)) ::
          HolderOk(w', k, w'.past.hold[k]))
    && (forall k | k in x.keys && w'.Open(k) :: k in w'.past.hold && Alone(w', k))
  }

  ghost predicate TransferConns(w: World, w': World, x: Scope) {
    forall c | c in w'.conns && c in x.conns :: ConnOk(w', c, w'.conns[c])
  }

  ghost predicate TransferMaps(w: World, w': World, s: int) {
    forall r | 0 <= r < |w'.rings| && s in w'.rings[r].node.directMap ::
      MapEntryOk(w', r, s, w'.rings[r].node.directMap[s])
  }

  ghost predicate TransferCells(w: World, w': World, s: int)
    requires w'.past.loc.Keys == w'.mem.Keys
  {
    forall a | a in w'.mem && (a !in w.mem || AddrOf(w, a, s)) :: CellOk(w', a, w'.mem[a], w'.past.loc[a])
  }

  ghost predicate TransferOps(w: World, w': World, s: int) {
    forall id | id in w'.ops && (id !in w.ops || OpOf(w, id, s)) :: OpOk(w', id, w'.ops[id])
  }

  ghost predicate TransferQueues(w: World, w': World, x: Scope) {
    forall r | 0 <= r < |w.rings| == |w'.rings| ::
      (QueueOutside(w, r, x) && w'.rings[r].cq == w.rings[r].cq) || QueueOk(w', r)
  }

  lemma TransferKeeps(w: World, w': World, x: Scope, s: int)
    requires Inv(w) && TransferStep(w, w', x, s)
    requires TransferHolders(w, w', x, s) && TransferConns(w, w', x) && TransferMaps(w, w', s)
    requires TransferCells(w, w', s) && TransferOps(w, w', s) && TransferQueues(w, w', x)
    ensures Inv(w')
  {
    SlotsStep(w, w', x, s);
    ConnsStep(w, w', x, s);
    MapsStep(w, w', x, s);
    MessagesStep(w, w', x, s);
  }

  lemma SlotsStep(w: World, w': World, x: Scope, s: int)
    requires Inv(w) && TransferStep(w, w', x, s) && TransferHolders(w, w', x, s)
    ensures SlotsOk(w')
  {
    Parts(w);
    forall k | k in w'.past.hold && !HolderOk(w', k, w'.past.hold[k])
      ensures k in w.past.hold && HolderOutside(w, k, w.past.hold[k], x)
    {
      HoldersApart(w, x, s, k);
    }
    SlotsKept(w, w', x);
  }

  lemma ConnsStep(w: World, w': World, x: Scope, s: int)
    requires Inv(w) && TransferStep(w, w', x, s) && TransferConns(w, w', x)
    ensures ConnsOk(w')
  {
    forall c | c in w.conns ensures Responsible(w.conns[c]) !in x.keys { assert ConnOk(w, c, w.conns[c]); }
    ConnsKept(w, w', x);
  }

  lemma MapsStep(w: World, w': World, x: Scope, s: int)
    requires Inv(w) && TransferStep(w, w', x, s) && TransferMaps(w, w', s)
    ensures MapsOk(w')
  {
    MapsKept(w, w', x);
  }

  lemma MessagesStep(w: World, w': World, x: Scope, s: int)
    requires Inv(w) && TransferStep(w, w', x, s)
    requires TransferCells(w, w', s) && TransferOps(w, w', s) && TransferQueues(w, w', x)
    ensures MessagesOk(w')
  {
    Parts(w);
    forall a | a in w'.mem && !CellOk(w', a, w'.mem[a], w'.past.loc[a]) ensures a in w.mem && CellOutside(w, a, x) {
      CellsApart(w, x, s, a);
    }
    forall id | id in w'.ops && !OpOk(w', id, w'.ops[id]) ensures id in w.ops && OpOutside(w, id, x) {
      OpsApart(w, x, s, id);
    }
    MessagesKept(w, w', x);
  }

  // A queue with no entry of the transfer in it.
  lemma QueueElsewhere(w: World, x: Scope, s: int, r: nat)
    requires SendingAt(w, s) && ScopeOf(w, x, s) && r < |w.rings| && QueueOk(w, r)
    requires forall i | 0 <= i < |w.rings[r].cq| :: !AddrOf(w, w.rings[r].cq[i].data, s)
    ensures QueueOutside(w, r, x)
  {
    forall i | 0 <= i < |w.rings[r].cq| ensures w.rings[r].cq[i].data in w.mem && EntryOutside(w, w.rings[r].cq[i], x) {
      assert EntryOk(w, r, w.rings[r].cq[i]) && IsAt(w, w.rings[r].cq[i].data, InQueue(r));
      EntriesApart(w, x, s, r, w.rings[r].cq[i]);
    }
  }

  // Everything that has to do with one transfer.
  lemma AboutTransfer(w: World, s: int)
    requires Inv(w) && SendingAt(w, s)
    ensures HolderOk(w, Key(0, s), w.past.hold[Key(0, s)])
    ensures forall a | AddrOf(w, a, s) :: CellOk(w, a, w.mem[a], w.past.loc[a])
    ensures forall id | OpOf(w, id, s) :: id == TransferAt(w, s).op && OpOk(w, id, w.ops[id])
    ensures forall k | k in w.past.hold && w.past.hold[k] == Arriving(s) :: HolderOk(w, k, w.past.hold[k])
  {
    forall a | AddrOf(w, a, s) ensures CellOk(w, a, w.mem[a], w.past.loc[a]) {}
    forall id | OpOf(w, id, s) ensures id == TransferAt(w, s).op && OpOk(w, id, w.ops[id]) {
      assert OpOk(w, id, w.ops[id]);
    }
    forall k | k in w.past.hold && w.past.hold[k] == Arriving(s) ensures HolderOk(w, k, w.past.hold[k]) {}
  }

  // -- The descriptor message

  ghost predicate FdReady(w: World, id: OpId, there: int, id2: OpId) {
    CanExecFd(w, id, there, id2) && Tidy(w) && OpOk(w, id, w.ops[id])
      && HolderOk(w, Key(0, w.ops[id].slot), w.past.hold[Key(0, w.ops[id].slot)])
    && Key(w.ops[id].target, there) !in w.past.hold
  }

  function FdScope(w: World, id: OpId, there: int): Scope
    requires id in w.ops && w.ops[id].Link?
  {
    var o := w.ops[id];
    Scope({o.recv, o.sender}, {id}, {Key(0, o.slot), Key(o.target, there)}, {})
  }

  lemma FdReadied(w: World, id: OpId, there: int, id2: OpId)
    requires Inv(w) && CanExecFd(w, id, there, id2)
    ensures FdReady(w, id, there, id2)
  {
    AboutOp(w, id);
    HeldIsOpen(w, Key(0, w.ops[id].slot));
    if Key(w.ops[id].target, there) in w.past.hold { HeldIsOpen(w, Key(w.ops[id].target, there)); }
  }

  lemma FdSlotsApart(w: World, id: OpId, there: int, id2: OpId)
    requires FdReady(w, id, there, id2)
    ensures SameSlots(w, ExecFd(w, id, there, id2), FdScope(w, id, there))
  {
    var w', x := ExecFd(w, id, there, id2), FdScope(w, id, there);
    forall k: Key | k !in x.keys ensures SameSlot(w, w', k) {}
  }

  lemma FdStep(w: World, id: OpId, there: int, id2: OpId)
    requires FdReady(w, id, there, id2)
    ensures TransferStep(w, ExecFd(w, id, there, id2), FdScope(w, id, there), w.ops[id].slot)
  {
    FdSlotsApart(w, id, there, id2);
    FdMessagesApart(w, id, there, id2);
  }

  lemma FdMessagesApart(w: World, id: OpId, there: int, id2: OpId)
    requires FdReady(w, id, there, id2)
    ensures SameMessages(w, ExecFd(w, id, there, id2), FdScope(w, id, there))
  {
    MessagesAdded(w, ExecFd(w, id, there, id2), FdScope(w, id, there));
  }

  // No slot of the worker is open for the socket yet.
  lemma FdFresh(w: World, id: OpId, there: int, id2: OpId, l: Key)
    requires Inv(w) && FdReady(w, id, there, id2)
    requires l in w.past.hold && l.ring == w.ops[id].target
    ensures w.Open(l) && w.SockAt(l) != w.SockAt(Key(0, w.ops[id].slot))
  {
    var key := Key(0, w.ops[id].slot);
    HeldIsOpen(w, l);
    match w.past.hold[l]
    case Arriving(s) =>
      HeldIsOpen(w, Key(0, s));
      assert Alone(w, key);
    case _ =>
  }

  lemma FdHolders(w: World, id: OpId, there: int, id2: OpId)
    requires Inv(w) && FdReady(w, id, there, id2)
    ensures TransferHolders(w, ExecFd(w, id, there, id2), FdScope(w, id, there), w.ops[id].slot)
  {
    var s, key := w.ops[id].slot, Key(w.ops[id].target, there);
    var w' := ExecFd(w, id, there, id2);
    AboutTransfer(w, s);
    forall l | l in w.past.hold && l.ring == key.ring ensures w.Open(l) && w.SockAt(l) != w.SockAt(Key(0, s)) {
      FdFresh(w, id, there, id2, l);
    }
    FdHolderOk(w, id, there, id2);
    StaysAlone(w, w', Key(0, s));
  }

  // A slot that is open for no other's socket stays so when its ring's table stays as it is.
  lemma StaysAlone(w: World, w': World, k: Key)
    requires Inv(w) && k in w.past.hold && k.ring < |w.rings| == |w'.rings|
      && w'.rings[k.ring].table == w.rings[k.ring].table
    requires forall l | l in w'.past.hold && l.ring == k.ring :: l in w.past.hold
    requires k in w'.past.hold && !w'.past.hold[k].Releasing?
    ensures Alone(w', k)
  {
    assert Alone(w, k);
  }

  lemma FdHolderOk(w: World, id: OpId, there: int, id2: OpId)
    requires FdReady(w, id, there, id2)
    ensures var w', s, key := ExecFd(w, id, there, id2), w.ops[id].slot, Key(w.ops[id].target, there);
      HolderOk(w', Key(0, s), w'.past.hold[Key(0, s)]) && HolderOk(w', key, w'.past.hold[key])
  {}

  lemma FdMessages(w: World, id: OpId, there: int, id2: OpId)
    requires Inv(w) && FdReady(w, id, there, id2)
    ensures var w', s := ExecFd(w, id, there, id2), w.ops[id].slot;
      w'.past.loc.Keys == w'.mem.Keys && TransferCells(w, w', s) && TransferOps(w, w', s)
  {
    AboutTransfer(w, w.ops[id].slot);
    FdCellOk(w, id, there, id2);
    AboutOp(w, id);
  }

  lemma FdCellOk(w: World, id: OpId, there: int, id2: OpId)
    requires FdReady(w, id, there, id2)
    requires var o := w.ops[id]; forall a | a in {o.recv, o.sender, o.helper} :: CellOk(w, a, w.mem[a], w.past.loc[a])
    ensures var w', o := ExecFd(w, id, there, id2), w.ops[id];
      && (forall a | a in {o.recv, o.sender, o.helper} :: CellOk(w', a, w'.mem[a], w'.past.loc[a]))
      && OpOk(w', id, w'.ops[id]) && OpOk(w', id2, w'.ops[id2])
  {
    var q := ExecFd(w, id, there, id2).rings[w.ops[id].target].cq;
    assert q[|q| - 1].data == w.ops[id].recv;
    assert !HasTaskFlag(0);
  }

  // No queue has an entry of a transfer whose descriptor has not been posted.
  lemma NotQueuedYet(w: World, s: int, x: Scope, r: nat)
    requires Inv(w) && SendingAt(w, s) && TransferAt(w, s).stage.Linked? && ScopeOf(w, x, s) && r < |w.rings|
    ensures QueueOutside(w, r, x)
  {
    assert QueueOk(w, r);
    forall i | 0 <= i < |w.rings[r].cq| ensures !AddrOf(w, w.rings[r].cq[i].data, s) {
      assert EntryOk(w, r, w.rings[r].cq[i]);
    }
    QueueElsewhere(w, x, s, r);
  }

  lemma FdQueues(w: World, id: OpId, there: int, id2: OpId)
    requires Inv(w) && FdReady(w, id, there, id2)
    requires TransferStep(w, ExecFd(w, id, there, id2), FdScope(w, id, there), w.ops[id].slot)
    ensures TransferQueues(w, ExecFd(w, id, there, id2), FdScope(w, id, there))
  {
    var w', x, o := ExecFd(w, id, there, id2), FdScope(w, id, there), w.ops[id];
    forall r | 0 <= r < |w.rings| ensures QueueOutside(w, r, x) { NotQueuedYet(w, o.slot, x, r); }
    assert QueueOk(w, o.target) && CellOk(w, o.recv, w.mem[o.recv], w.past.loc[o.recv]);
    FdQueue(w, id, there, id2);
  }

  lemma FdQueue(w: World, id: OpId, there: int, id2: OpId)
    requires FdReady(w, id, there, id2) && QueueOk(w, w.ops[id].target) && w.ops[id].recv != NULL
    requires Apart(w, ExecFd(w, id, there, id2), FdScope(w, id, there))
      && QueueOutside(w, w.ops[id].target, FdScope(w, id, there))
    ensures QueueOk(ExecFd(w, id, there, id2), w.ops[id].target)
  {
    var w', x, o := ExecFd(w, id, there, id2), FdScope(w, id, there), w.ops[id];
    var r := o.target;
    forall i | 0 <= i < |w.rings[r].cq| ensures EntryKept(w, w', x, r, i) {
      assert FdComesFirst(w, r, i);
      FdFirstFrame(w, w', x, r, i);
    }
    assert !HasTaskFlag(0);
    QueueGrows(w, w', x, r, Entry(FdInstalled(there, o.recv)));
  }

  lemma NoEntryYet(w: World, s: int, r: nat)
    requires Inv(w) && SendingAt(w, s) && TransferAt(w, s).stage.Linked? && r < |w.rings|
    ensures s !in w.rings[r].node.directMap
  {
    var m := w.rings[r].node.directMap;
    assert s in m ==> MapEntryOk(w, r, s, m[s]);
  }

  lemma FdMaps(w: World, id: OpId, there: int, id2: OpId)
    requires Inv(w) && FdReady(w, id, there, id2)
    ensures TransferMaps(w, ExecFd(w, id, there, id2), w.ops[id].slot)
  {
    var s := w.ops[id].slot;
    forall r | 0 <= r < |w.rings| ensures s !in w.rings[r].node.directMap { NoEntryYet(w, s, r); }
  }

  lemma ExecFdKeeps(w: World, id: OpId, there: int, id2: OpId)
    requires Inv(w) && CanExecFd(w, id, there, id2)
    ensures Inv(ExecFd(w, id, there, id2))
  {
    var w', x, s := ExecFd(w, id, there, id2), FdScope(w, id, there), w.ops[id].slot;
    FdReadied(w, id, there, id2);
    FdStep(w, id, there, id2);
    FdHolders(w, id, there, id2);
    FdMaps(w, id, there, id2);
    FdMessages(w, id, there, id2);
    FdQueues(w, id, there, id2);
    TransferKeeps(w, w', x, s);
  }

  // -- The task message

  ghost predicate TaskReady(w: World, id: OpId, s: int) {
    && CanExecTask(w, id) && Tidy(w) && OpOk(w, id, w.ops[id]) && s == w.mem[w.ops[id].helper].slot
    && HolderOk(w, Key(0, s), w.past.hold[Key(0, s)]) && TransferAt(w, s).helper == w.ops[id].helper
  }

  lemma TaskReadied(w: World, id: OpId)
    requires Inv(w) && CanExecTask(w, id)
    ensures w.ops[id].helper in w.mem && w.mem[w.ops[id].helper].ConnMessage?
    ensures TaskReady(w, id, w.mem[w.ops[id].helper].slot)
  {
    AboutOp(w, id);
    AboutCell(w, w.ops[id].helper);
    HeldIsOpen(w, Key(0, w.mem[w.ops[id].helper].slot));
  }

  function TaskScope(w: World, id: OpId, s: int): Scope
    requires id in w.ops && w.ops[id].LinkTask?
  {
    Scope({w.ops[id].helper}, {id}, {Key(0, s)}, {})
  }

  lemma TaskStep(w: World, id: OpId, s: int)
    requires TaskReady(w, id, s)
    ensures TransferStep(w, ExecTask(w, id), TaskScope(w, id, s), s)
  {
    TaskApart(w, id, s);
  }

  lemma TaskApart(w: World, id: OpId, s: int)
    requires TaskReady(w, id, s)
    ensures Apart(w, ExecTask(w, id), TaskScope(w, id, s))
  {
    SlotsUntouched(w, ExecTask(w, id), TaskScope(w, id, s));
    TaskMessagesApart(w, id, s);
  }

  lemma TaskMessagesApart(w: World, id: OpId, s: int)
    requires TaskReady(w, id, s)
    ensures SameMessages(w, ExecTask(w, id), TaskScope(w, id, s))
  {
    MessagesAdded(w, ExecTask(w, id), TaskScope(w, id, s));
  }

  // All that is known of the transfer whose task is being posted.
  ghost predicate TaskKnown(w: World, id: OpId, s: int) {
    && TaskReady(w, id, s)
    && (forall a | AddrOf(w, a, s) :: CellOk(w, a, w.mem[a], w.past.loc[a]))
    && (forall id2 | OpOf(w, id2, s) :: id2 == id)
    && (forall k | k in w.past.hold && w.past.hold[k] == Arriving(s) :: HolderOk(w, k, w.past.hold[k]))
    && Alone(w, Key(0, s))
  }

  lemma TaskIsKnown(w: World, id: OpId, s: int)
    requires Inv(w) && TaskReady(w, id, s)
    ensures TaskKnown(w, id, s)
  {
    AboutTransfer(w, s);
    assert Alone(w, Key(0, s));
  }

  lemma TaskHolders(w: World, id: OpId, s: int)
    requires TaskKnown(w, id, s)
    ensures TransferHolders(w, ExecTask(w, id), TaskScope(w, id, s), s)
  {
    var w' := ExecTask(w, id);
    assert HolderOk(w', Key(0, s), w'.past.hold[Key(0, s)]);
    forall k | k in w.past.hold && w.past.hold[k] == Arriving(s) ensures HolderOk(w', k, w'.past.hold[k]) {
      assert HolderOk(w, k, w.past.hold[k]);
    }
  }

  lemma TaskMaps(w: World, id: OpId, s: int)
    requires Inv(w) && TaskReady(w, id, s)
    ensures TransferMaps(w, ExecTask(w, id), s)
  {
    var w' := ExecTask(w, id);
    forall r | 0 <= r < |w.rings| && s in w.rings[r].node.directMap
      ensures MapEntryOk(w', r, s, w'.rings[r].node.directMap[s]) {
      assert MapEntryOk(w, r, s, w.rings[r].node.directMap[s]);
    }
  }

  lemma TaskMessages(w: World, id: OpId, s: int)
    requires TaskKnown(w, id, s)
    ensures var w' := ExecTask(w, id);
      w'.past.loc.Keys == w'.mem.Keys && TransferCells(w, w', s) && TransferOps(w, w', s)
  {
    var w', helper := ExecTask(w, id), w.ops[id].helper;
    var q := w'.rings[w.ops[id].target].cq;
    assert q[|q| - 1].data == helper;
    SameQueues(w, w');
    forall a | AddrOf(w, a, s) ensures a in w'.mem && CellOk(w', a, w'.mem[a], w'.past.loc[a]) {
      assert CellOk(w, a, w.mem[a], w.past.loc[a]);
      if a != helper { assert IsReceiver(w.mem[a], s); }
    }
  }

  lemma TaskQueues(w: World, id: OpId, s: int)
    requires Inv(w) && TaskReady(w, id, s) && TransferStep(w, ExecTask(w, id), TaskScope(w, id, s), s)
    ensures TransferQueues(w, ExecTask(w, id), TaskScope(w, id, s))
  {
    var w', x, target := ExecTask(w, id), TaskScope(w, id, s), w.ops[id].target;
    AboutTransfer(w, s);
    forall r | 0 <= r < |w.rings| && r != target ensures QueueOutside(w, r, x) { TaskElsewhere(w, id, s, r); }
    assert QueueOk(w, target);
    TaskQueue(w, id, s);
  }

  // No other queue has anything of this transfer.
  lemma TaskElsewhere(w: World, id: OpId, s: int, r: nat)
    requires Inv(w) && TaskReady(w, id, s) && r < |w.rings| && r != w.ops[id].target
    ensures QueueOutside(w, r, TaskScope(w, id, s))
  {
    AboutTransfer(w, s);
    assert QueueOk(w, r);
    forall i | 0 <= i < |w.rings[r].cq| ensures !AddrOf(w, w.rings[r].cq[i].data, s) {
      assert EntryOk(w, r, w.rings[r].cq[i]);
    }
    TaskStep(w, id, s);
    QueueElsewhere(w, TaskScope(w, id, s), s, r);
  }

  lemma TaskQueue(w: World, id: OpId, s: int)
    requires TaskReady(w, id, s) && QueueOk(w, w.ops[id].target)
      && TransferStep(w, ExecTask(w, id), TaskScope(w, id, s), s)
    requires forall a | AddrOf(w, a, s) :: CellOk(w, a, w.mem[a], w.past.loc[a])
    ensures QueueOk(ExecTask(w, id), w.ops[id].target)
  {
    var w', x, r := ExecTask(w, id), TaskScope(w, id, s), w.ops[id].target;
    forall i | 0 <= i < |w.rings[r].cq| ensures EntryKept(w, w', x, r, i) { TaskEntry(w, id, s, i); }
    NewTaskEntry(w, id, s);
    QueueGrows(w, w', x, r, Entry(SpawnConn(w.ops[id].helper)));
  }

  // The new entry comes after its descriptor's, or that one has been handled.
  lemma NewTaskEntry(w: World, id: OpId, s: int)
    requires TaskReady(w, id, s) && w.ops[id].helper != NULL
    requires forall a | AddrOf(w, a, s) :: CellOk(w, a, w.mem[a], w.past.loc[a])
    ensures var w', r, e := ExecTask(w, id), w.ops[id].target, Entry(SpawnConn(w.ops[id].helper));
      EntryOk(w', r, e) && IsAt(w', e.data, InQueue(r)) && FdComesFirst(w', r, |w.rings[r].cq|)
  {
    var w', r, t := ExecTask(w, id), w.ops[id].target, TransferAt(w, s);
    assert HasTaskFlag(F_TASK);
    if s !in w.rings[r].node.directMap {
      assert AddrOf(w, t.recv, s);
      assert InQueueAt(w, r, t.recv);
      var i :| 0 <= i < |w.rings[r].cq| && w.rings[r].cq[i].data == t.recv;
      assert w'.rings[r].cq[i].data == t.recv;
    }
  }

  // The other entries, among them perhaps the descriptor's.
  lemma TaskEntry(w: World, id: OpId, s: int, i: nat)
    requires TaskReady(w, id, s) && QueueOk(w, w.ops[id].target)
      && TransferStep(w, ExecTask(w, id), TaskScope(w, id, s), s)
    requires forall a | AddrOf(w, a, s) :: CellOk(w, a, w.mem[a], w.past.loc[a])
    requires i < |w.rings[w.ops[id].target].cq|
    ensures EntryKept(w, ExecTask(w, id), TaskScope(w, id, s), w.ops[id].target, i)
  {
    var w', x, r := ExecTask(w, id), TaskScope(w, id, s), w.ops[id].target;
    var e := w.rings[r].cq[i];
    assert EntryOk(w, r, e) && IsAt(w, e.data, InQueue(r)) && FdComesFirst(w, r, i);
    if AddrOf(w, e.data, s) {
      ReceiverStays(w, id, s, e);
    } else {
      EntriesApart(w, x, s, r, e);
      FdFirstFrame(w, w', x, r, i);
    }
  }

  lemma ReceiverStays(w: World, id: OpId, s: int, e: Cqe)
    requires TaskReady(w, id, s) && AddrOf(w, e.data, s) && CellOk(w, e.data, w.mem[e.data], w.past.loc[e.data])
    requires EntryOk(w, w.ops[id].target, e) && IsAt(w, e.data, InQueue(w.ops[id].target))
    ensures var w', r := ExecTask(w, id), w.ops[id].target;
      EntryOk(w', r, e) && IsAt(w', e.data, InQueue(r)) && IsReceiver(w'.mem[e.data], s)
  {}

  lemma ExecTaskKeeps(w: World, id: OpId)
    requires Inv(w) && CanExecTask(w, id)
    ensures Inv(ExecTask(w, id))
  {
    TaskReadied(w, id);
    var s := w.mem[w.ops[id].helper].slot;
    TaskIsKnown(w, id, s);
    TaskStep(w, id, s);
    TaskHolders(w, id, s);
    TaskMaps(w, id, s);
    TaskMessages(w, id, s);
    TaskQueues(w, id, s);
    TransferKeeps(w, ExecTask(w, id), TaskScope(w, id, s), s);
  }
}
