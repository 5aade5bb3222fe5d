/** Handling a completion never fails and keeps the invariant. */
module HandoffHandle {
  import opened Common
  import opened Messages
  import opened Connection
  import opened UringRing
  import opened Handoff
  import opened HandoffInvariant
  import opened HandoffFrame
  import opened HandoffOthers
  import opened HandoffSteps
  import opened HandoffKernel
  import opened HandoffTransfers

  // The completion at the head of ring `r`'s queue, and what it points at.
  ghost predicate AtHead(w: World, r: nat) {
    && r < |w.rings| && w.rings[r].cq != [] && EntryOk(w, r, w.rings[r].cq[0])
       && IsAt(w, w.rings[r].cq[0].data, InQueue(r))
    && w.rings[r].node.submitted == [] && FdComesFirst(w, r, 0)
  }

  lemma HeadIs(w: World, r: nat)
    requires Inv(w) && r < |w.rings| && w.rings[r].cq != []
    ensures AtHead(w, r)
  {
    assert QueueOk(w, r);
    assert EntryOk(w, r, w.rings[r].cq[0]) && FdComesFirst(w, r, 0);
  }

  function Data(w: World, r: nat): Addr
    requires r < |w.rings| && w.rings[r].cq != []
  {
    w.rings[r].cq[0].data
  }

  // The ring after its head is taken off.
  function Popped(w: World, r: nat, n: Node): seq<Ring>
    requires r < |w.rings| && w.rings[r].cq != []
  {
    w.rings[r := w.rings[r].(cq := w.rings[r].cq[1..], node := n)]
  }

  // -- The new states, branch by branch

  function TaskHandled(w: World, r: nat): World
    requires r < |w.rings| && w.rings[r].cq != [] && Data(w, r) in w.mem && w.mem[Data(w, r)].TaskMessage?
  {
    var a, n := Data(w, r), w.rings[r].node;
    var t := w.mem[a].task;
    w.(mem := w.mem - {a},
       rings := Popped(w, r, n.(peer := n.peer + [PeerTask(Plain(t), false)])),
       past := w.past.(loc := w.past.loc - {a}, arrived := w.past.arrived + {t}))
  }

  // The sender's own completion of either kind of message.
  function SenderHandled(w: World, r: nat): World
    requires r < |w.rings| && w.rings[r].cq != []
  {
    w.(mem := w.mem - {Data(w, r)},
       rings := Popped(w, r, w.rings[r].node),
       past := w.past.(loc := w.past.loc - {Data(w, r)}))
  }

  function IoHandled(w: World, r: nat): World
    requires r < |w.rings| && w.rings[r].cq != [] && Data(w, r) in w.mem && w.mem[Data(w, r)].Token?
    requires w.mem[Data(w, r)].root < |w.rings[r].node.peer|
  {
    var e, n := w.rings[r].cq[0], w.rings[r].node;
    var root := w.mem[e.data].root;
    w.(mem := w.mem[e.data := w.mem[e.data].(res := e.res, flags := e.flags)],
       rings := Popped(w, r, n.(peer := n.peer[root := n.peer[root].(pending := false)])),
       past := w.past.(loc := w.past.loc[e.data := InFrame]))
  }

  function ReleaseHandled(w: World, r: nat, id: OpId): World
    requires r < |w.rings| && w.rings[r].cq != []
  {
    var e := w.rings[r].cq[0];
    var key := Key(r, e.res);
    w.(mem := w.mem - {e.data},
       rings := Popped(w, r, w.rings[r].node),
       ops := w.ops[id := Close(key)],
       past := IssueClose(w, w.past.(loc := w.past.loc - {e.data}, hold := w.past.hold[key := Closing(id)]), key))
  }

  function FdHandled(w: World, r: nat): World
    requires r < |w.rings| && w.rings[r].cq != [] && Data(w, r) in w.mem && w.mem[Data(w, r)].Token?
  {
    var e, n := w.rings[r].cq[0], w.rings[r].node;
    w.(mem := w.mem - {e.data},
       rings := Popped(w, r, n.(directMap := n.directMap[w.mem[e.data].res := e.res])),
       past := w.past.(loc := w.past.loc - {e.data}))
  }

  // `here` is what the worker's map has for main slot `s`.
  function ConnHandled(w: World, r: nat, s: int, here: int, func: FuncId, notice: Addr, id: OpId, c: ConnId): World
    requires r < |w.rings| && w.rings[r].cq != [] && w.Open(Key(r, here))
  {
    var a, n := Data(w, r), w.rings[r].node;
    var conn := Rebound(Accepted(NO_SLOT), here);
    w.(mem := (w.mem - {a})[notice := RELEASE_NOTICE],
       rings := Popped(w, r, n.(directMap := n.directMap - {s},
         peer := n.peer + [PeerTask(WithConn(func, conn), false)])),
       ops := w.ops[id := Post(0, Entry(PlainMessage(s, notice)))],
       conns := w.conns[c := Placed(r, conn)],
       past := w.past.(loc := (w.past.loc - {a})[notice := WithOp(id)],
                       hold := w.past.hold[Key(0, s) := Releasing(notice)][Key(r, here) := OwnedBy(c)],
                       home := w.past.home[w.SockAt(Key(r, here)) := Key(r, here)]))
  }

  // -- They are what handling does

  lemma HandleIsTask(w: World, alloc: Alloc, r: nat, id: OpId, c: ConnId)
    requires AtHead(w, r) && w.mem[Data(w, r)].TaskMessage? && id !in w.ops && c !in w.conns
    ensures CanHandle(w, alloc, r, id, c) && HandleHead(w, alloc, r, id, c) == TaskHandled(w, r)
  {}

  lemma HandleIsSender(w: World, alloc: Alloc, r: nat, id: OpId, c: ConnId)
    requires AtHead(w, r) && w.mem[Data(w, r)].Token? && w.mem[Data(w, r)].op in {RingFdSender, RingTask}
      && id !in w.ops && c !in w.conns
    ensures CanHandle(w, alloc, r, id, c) && HandleHead(w, alloc, r, id, c) == SenderHandled(w, r)
  {}

  lemma HandleIsIo(w: World, alloc: Alloc, r: nat, id: OpId, c: ConnId)
    requires AtHead(w, r) && w.mem[Data(w, r)].Token? && Awaited(w.mem[Data(w, r)].op) && id !in w.ops && c !in w.conns
    ensures CanHandle(w, alloc, r, id, c) && HandleHead(w, alloc, r, id, c) == IoHandled(w, r)
  {}

  lemma HandleIsRelease(w: World, alloc: Alloc, r: nat, id: OpId, c: ConnId)
    requires AtHead(w, r) && w.mem[Data(w, r)].Token? && w.mem[Data(w, r)].op.MainRingCloseDirectSocket?
      && id !in w.ops && c !in w.conns
    ensures CanHandle(w, alloc, r, id, c) && HandleHead(w, alloc, r, id, c) == ReleaseHandled(w, r, id)
  {}

  lemma HandleIsFd(w: World, alloc: Alloc, r: nat, id: OpId, c: ConnId)
    requires AtHead(w, r) && w.mem[Data(w, r)].Token? && w.mem[Data(w, r)].op.RingFdReceiver? && id !in w.ops
      && c !in w.conns
    ensures CanHandle(w, alloc, r, id, c) && HandleHead(w, alloc, r, id, c) == FdHandled(w, r)
  {}

  lemma HandleIsConn(w: World, alloc: Alloc, r: nat, id: OpId, c: ConnId)
    requires AtHead(w, r) && w.mem[Data(w, r)].ConnMessage? && id !in w.ops && c !in w.conns
    requires var s := w.mem[Data(w, r)].slot;
      s in w.rings[r].node.directMap && w.Open(Key(r, w.rings[r].node.directMap[s]))
    ensures var m := w.mem[Data(w, r)];
      && CanHandle(w, alloc, r, id, c)
      && var there, token := w.rings[r].node.directMap[m.slot], alloc(w.mem.Keys - {Data(w, r)});
      HandleHead(w, alloc, r, id, c) == ConnHandled(w, r, m.slot, there, m.func, token, id, c)
  {
    assert (w.mem - {Data(w, r)}).Keys == w.mem.Keys - {Data(w, r)};
  }

  // -- Branches that belong to no transfer

  function DataScope(w: World, r: nat, keys: set<Key>): Scope
    requires r < |w.rings| && w.rings[r].cq != []
  {
    Scope({Data(w, r)}, {}, keys, {})
  }

  // All queues but the head's keep their entries; the head's loses it.
  lemma HeadQueues(w: World, w': World, r: nat, keys: set<Key>)
    requires Inv(w) && r < |w.rings| && w.rings[r].cq != []
    requires NoTransfer(w, DataScope(w, r, keys)) && Apart(w, w', DataScope(w, r, keys))
    requires w'.rings[r].cq == w.rings[r].cq[1..] &&
      forall q | 0 <= q < |w.rings| && q != r :: w'.rings[q].cq == w.rings[q].cq
    requires forall k | k in keys && k in w.past.hold && w.past.hold[k].Releasing? :: w.past.hold[k].token == Data(w, r)
    ensures AsideQueues(w, w', DataScope(w, r, keys))
  {
    var x, cq := DataScope(w, r, keys), w.rings[r].cq;
    HeadIs(w, r);
    QueuesAside(w, x);
    assert QueueOk(w, r);
    forall i | 0 < i < |cq| ensures StaysQueued(w, w', x, r, i) {
      assert EntryOk(w, r, cq[i]);
      EntriesAside(w, x, r, cq[i]);
    }
    QueueShrinks(w, w', x, r);
  }

  lemma TaskApart(w: World, r: nat)
    requires Tidy(w) && AtHead(w, r) && w.mem[Data(w, r)].TaskMessage?
    ensures AsideStep(w, TaskHandled(w, r), DataScope(w, r, {}))
  {
    SlotsUntouched(w, TaskHandled(w, r), DataScope(w, r, {}));
    MessagesPopped(w, TaskHandled(w, r), DataScope(w, r, {}), r);
  }

  lemma TaskHandledKeeps(w: World, r: nat)
    requires Inv(w) && AtHead(w, r) && w.mem[Data(w, r)].TaskMessage?
    ensures Inv(TaskHandled(w, r))
  {
    TaskApart(w, r);
    AboutCell(w, Data(w, r));
    HeadQueues(w, TaskHandled(w, r), r, {});
    AsideKeeps(w, TaskHandled(w, r), DataScope(w, r, {}));
  }

  lemma SenderApart(w: World, r: nat)
    requires Tidy(w) && AtHead(w, r) && w.mem[Data(w, r)].Token? && w.mem[Data(w, r)].op in {RingFdSender, RingTask}
    ensures AsideStep(w, SenderHandled(w, r), DataScope(w, r, {}))
  {
    SlotsUntouched(w, SenderHandled(w, r), DataScope(w, r, {}));
    MessagesPopped(w, SenderHandled(w, r), DataScope(w, r, {}), r);
  }

  lemma SenderHandledKeeps(w: World, r: nat)
    requires Inv(w) && AtHead(w, r) && w.mem[Data(w, r)].Token? && w.mem[Data(w, r)].op in {RingFdSender, RingTask}
    ensures Inv(SenderHandled(w, r))
  {
    SenderApart(w, r);
    AboutCell(w, Data(w, r));
    HeadQueues(w, SenderHandled(w, r), r, {});
    AsideKeeps(w, SenderHandled(w, r), DataScope(w, r, {}));
  }

  lemma IoApart(w: World, r: nat)
    requires Tidy(w) && AtHead(w, r) && w.mem[Data(w, r)].Token? && Awaited(w.mem[Data(w, r)].op)
    ensures AsideStep(w, IoHandled(w, r), DataScope(w, r, {}))
  {
    SlotsUntouched(w, IoHandled(w, r), DataScope(w, r, {}));
    MessagesPopped(w, IoHandled(w, r), DataScope(w, r, {}), r);
  }

  lemma IoHandledKeeps(w: World, r: nat)
    requires Inv(w) && AtHead(w, r) && w.mem[Data(w, r)].Token? && Awaited(w.mem[Data(w, r)].op)
    ensures Inv(IoHandled(w, r))
  {
    IoApart(w, r);
    AboutCell(w, Data(w, r));
    HeadQueues(w, IoHandled(w, r), r, {});
    AsideKeeps(w, IoHandled(w, r), DataScope(w, r, {}));
  }

  lemma ReleaseApart(w: World, r: nat, id: OpId)
    requires Tidy(w) && AtHead(w, r) && w.mem[Data(w, r)].Token? && w.mem[Data(w, r)].op.MainRingCloseDirectSocket?
      && id !in w.ops
    requires HolderOk(w, Key(r, w.rings[r].cq[0].res), w.past.hold[Key(r, w.rings[r].cq[0].res)])
    requires forall c | c in w.conns :: ConnOk(w, c, w.conns[c])
    ensures AsideStep(w, ReleaseHandled(w, r, id), DataScope(w, r, {Key(r, w.rings[r].cq[0].res)}))
  {
    var w', x := ReleaseHandled(w, r, id), DataScope(w, r, {Key(r, w.rings[r].cq[0].res)});
    SlotsUntouched(w, w', x);
    MessagesPopped(w, w', x, r);
    forall c | c in w.conns ensures Responsible(w.conns[c]) !in x.keys { assert ConnOk(w, c, w.conns[c]); }
  }

  lemma ReleaseRest(w: World, r: nat, id: OpId)
    requires Inv(w) && AtHead(w, r) && w.mem[Data(w, r)].Token? && w.mem[Data(w, r)].op.MainRingCloseDirectSocket?
      && id !in w.ops
    ensures var w', x := ReleaseHandled(w, r, id), DataScope(w, r, {Key(r, w.rings[r].cq[0].res)});
      w'.past.loc.Keys == w'.mem.Keys && AsideCells(w, w', x) && AsideOps(w, w', x)
  {
    var key := Key(r, w.rings[r].cq[0].res);
    AboutCell(w, Data(w, r));
    HeldIsOpen(w, key);
    forall id2 | id2 in w.ops ensures !MovesWith(w, DataScope(w, r, {key}), id2) { AboutOp(w, id2); }
  }

  lemma ReleaseHolders(w: World, r: nat, id: OpId)
    requires Inv(w) && AtHead(w, r) && w.mem[Data(w, r)].Token? && w.mem[Data(w, r)].op.MainRingCloseDirectSocket?
      && id !in w.ops
    ensures AsideHolders(w, ReleaseHandled(w, r, id), DataScope(w, r, {Key(r, w.rings[r].cq[0].res)}))
  {
    var key := Key(r, w.rings[r].cq[0].res);
    AboutCell(w, Data(w, r));
    HeldIsOpen(w, key);
    assert Alone(w, key);
    forall id2 | id2 in w.ops ensures !MovesWith(w, DataScope(w, r, {key}), id2) { AboutOp(w, id2); }
  }

  lemma ReleaseHandledKeeps(w: World, r: nat, id: OpId)
    requires Inv(w) && AtHead(w, r) && w.mem[Data(w, r)].Token? && w.mem[Data(w, r)].op.MainRingCloseDirectSocket?
      && id !in w.ops
    ensures Inv(ReleaseHandled(w, r, id))
  {
    var key := Key(r, w.rings[r].cq[0].res);
    HeldIsOpen(w, key);
    forall c | c in w.conns ensures ConnOk(w, c, w.conns[c]) {}
    ReleaseApart(w, r, id);
    ReleaseRest(w, r, id);
    ReleaseHolders(w, r, id);
    HeadQueues(w, ReleaseHandled(w, r, id), r, {key});
    AsideKeeps(w, ReleaseHandled(w, r, id), DataScope(w, r, {key}));
  }

  // -- The descriptor has arrived: the worker's map learns its slot

  ghost predicate FdAtHead(w: World, r: nat) {
    && AtHead(w, r) && Tidy(w) && w.mem[Data(w, r)].Token? && w.mem[Data(w, r)].op.RingFdReceiver?
    && CellOk(w, Data(w, r), w.mem[Data(w, r)], w.past.loc[Data(w, r)])
    && HolderOk(w, Key(0, w.mem[Data(w, r)].res), w.past.hold[Key(0, w.mem[Data(w, r)].res)])
  }

  lemma FdIsAtHead(w: World, r: nat)
    requires Inv(w) && AtHead(w, r) && w.mem[Data(w, r)].Token? && w.mem[Data(w, r)].op.RingFdReceiver?
    ensures FdAtHead(w, r)
  {
    AboutCell(w, Data(w, r));
    HeldIsOpen(w, Key(0, w.mem[Data(w, r)].res));
  }

  function HeadScope(w: World, r: nat, s: int): Scope
    requires r < |w.rings| && w.rings[r].cq != []
  {
    DataScope(w, r, {Key(0, s)})
  }

  lemma FdHandledStep(w: World, r: nat)
    requires FdAtHead(w, r)
    ensures TransferStep(w, FdHandled(w, r), HeadScope(w, r, w.mem[Data(w, r)].res), w.mem[Data(w, r)].res)
  {
    FdHandledApart(w, r);
  }

  lemma FdHandledApart(w: World, r: nat)
    requires FdAtHead(w, r)
    ensures SameSlots(w, FdHandled(w, r), HeadScope(w, r, w.mem[Data(w, r)].res))
    ensures SameMessages(w, FdHandled(w, r), HeadScope(w, r, w.mem[Data(w, r)].res))
  {
    MessagesPopped(w, FdHandled(w, r), HeadScope(w, r, w.mem[Data(w, r)].res), r);
  }

  lemma FdHandledHolders(w: World, r: nat)
    requires Inv(w) && FdAtHead(w, r)
    ensures TransferHolders(w, FdHandled(w, r), HeadScope(w, r, w.mem[Data(w, r)].res), w.mem[Data(w, r)].res)
  {
    var s := w.mem[Data(w, r)].res;
    AboutTransfer(w, s);
    StaysAlone(w, FdHandled(w, r), Key(0, s));
    FdHandledHolderOk(w, r, s);
  }

  lemma FdHandledHolderOk(w: World, r: nat, s: int)
    requires FdAtHead(w, r) && s == w.mem[Data(w, r)].res
    ensures HolderOk(FdHandled(w, r), Key(0, s), w.past.hold[Key(0, s)])
    ensures forall k | k in w.past.hold && w.past.hold[k] == Arriving(s) && HolderOk(w, k, Arriving(s)) ::
      HolderOk(FdHandled(w, r), k, Arriving(s))
  {}

  lemma FdHandledMaps(w: World, r: nat)
    requires Inv(w) && FdAtHead(w, r)
    ensures TransferMaps(w, FdHandled(w, r), w.mem[Data(w, r)].res)
  {
    var s, w' := w.mem[Data(w, r)].res, FdHandled(w, r);
    forall q | 0 <= q < |w.rings| && s in w'.rings[q].node.directMap
      ensures MapEntryOk(w', q, s, w'.rings[q].node.directMap[s]) {
      assert s in w.rings[q].node.directMap ==> MapEntryOk(w, q, s, w.rings[q].node.directMap[s]);
    }
  }

  lemma FdHandledMessages(w: World, r: nat)
    requires Inv(w) && FdAtHead(w, r)
    ensures var w', s := FdHandled(w, r), w.mem[Data(w, r)].res;
      w'.past.loc.Keys == w'.mem.Keys && TransferCells(w, w', s) && TransferOps(w, w', s)
  {
    var s, w' := w.mem[Data(w, r)].res, FdHandled(w, r);
    AboutTransfer(w, s);
    forall a | AddrOf(w, a, s) && a in w'.mem ensures CellOk(w', a, w'.mem[a], w'.past.loc[a]) {
      FdHandledCell(w, r, a);
    }
    forall id | OpOf(w, id, s) ensures OpOk(w', id, w'.ops[id]) {}
  }

  lemma FdHandledCell(w: World, r: nat, a: Addr)
    requires FdAtHead(w, r) && AddrOf(w, a, w.mem[Data(w, r)].res) && a != Data(w, r)
    requires CellOk(w, a, w.mem[a], w.past.loc[a])
      && (w.past.loc[a].WithOp? && w.past.loc[a].op in w.ops ==> OpOk(w, w.past.loc[a].op, w.ops[w.past.loc[a].op]))
    ensures CellOk(FdHandled(w, r), a, w.mem[a], w.past.loc[a])
  {
    var s := w.mem[Data(w, r)].res;
    assert IsConnMessage(w.mem[a], s);
    FdHandledStep(w, r);
  }

  // What stays queued when the head, an entry of the transfer, goes.
  lemma HeadTransferQueues(w: World, w': World, r: nat, s: int, x: Scope)
    requires Inv(w) && TransferStep(w, w', x, s) && AtHead(w, r) && AddrOf(w, Data(w, r), s)
    requires w'.rings[r].cq == w.rings[r].cq[1..] &&
      forall q | 0 <= q < |w.rings| && q != r :: w'.rings[q].cq == w.rings[q].cq
    requires NobodyWaits(w, w', r)
    requires forall i | 0 < i < |w.rings[r].cq| && AddrOf(w, w.rings[r].cq[i].data, s) :: StaysQueued(w, w', x, r, i)
    requires TransferAt(w, s).worker == r
    ensures TransferQueues(w, w', x)
  {
    var cq := w.rings[r].cq;
    assert QueueOk(w, r);
    forall i | 0 < i < |cq| ensures StaysQueued(w, w', x, r, i) {
      assert EntryOk(w, r, cq[i]);
      if !AddrOf(w, cq[i].data, s) { EntriesApart(w, x, s, r, cq[i]); }
    }
    QueueShrinks(w, w', x, r);
    forall q | 0 <= q < |w.rings| && q != r ensures QueueOutside(w, q, x) {
      assert QueueOk(w, q);
      forall i | 0 <= i < |w.rings[q].cq| ensures !AddrOf(w, w.rings[q].cq[i].data, s) {
        assert EntryOk(w, q, w.rings[q].cq[i]) && IsAt(w, w.rings[q].cq[i].data, InQueue(q));
      }
      QueueElsewhere(w, x, s, q);
    }
  }

  lemma FdHandledQueues(w: World, r: nat)
    requires Inv(w) && FdAtHead(w, r)
    ensures TransferQueues(w, FdHandled(w, r), HeadScope(w, r, w.mem[Data(w, r)].res))
  {
    var s, w', cq := w.mem[Data(w, r)].res, FdHandled(w, r), w.rings[r].cq;
    var x := HeadScope(w, r, s);
    FdHandledStep(w, r);
    AboutTransfer(w, s);
    assert QueueOk(w, r);
    forall i | 0 < i < |cq| && AddrOf(w, cq[i].data, s) ensures StaysQueued(w, w', x, r, i) {
      assert EntryOk(w, r, cq[i]) && IsAt(w, cq[i].data, InQueue(r));
      FdHandledEntry(w, r, cq[i]);
    }
    HeadTransferQueues(w, w', r, s, x);
  }

  lemma FdHandledEntry(w: World, r: nat, e: Cqe)
    requires FdAtHead(w, r) && AddrOf(w, e.data, w.mem[Data(w, r)].res) && e.data != Data(w, r)
    requires EntryOk(w, r, e) && IsAt(w, e.data, InQueue(r)) && CellOk(w, e.data, w.mem[e.data], w.past.loc[e.data])
    ensures var w' := FdHandled(w, r);
      EntryOk(w', r, e) && IsAt(w', e.data, InQueue(r)) && w'.mem[e.data].ConnMessage?
        && w'.mem[e.data].slot in w'.rings[r].node.directMap
  {}

  lemma FdHandledKeeps(w: World, r: nat)
    requires Inv(w) && AtHead(w, r) && w.mem[Data(w, r)].Token? && w.mem[Data(w, r)].op.RingFdReceiver?
    ensures Inv(FdHandled(w, r))
  {
    var s := w.mem[Data(w, r)].res;
    FdIsAtHead(w, r);
    FdHandledStep(w, r);
    FdHandledHolders(w, r);
    FdHandledMaps(w, r);
    FdHandledMessages(w, r);
    FdHandledQueues(w, r);
    TransferKeeps(w, FdHandled(w, r), HeadScope(w, r, s), s);
  }

  // -- The connection has arrived: it gets the worker's slot, and the main ring is told to close its own

  ghost predicate ConnAtHead(w: World, r: nat) {
    && AtHead(w, r) && Tidy(w) && w.mem[Data(w, r)].ConnMessage?
    && var s := w.mem[Data(w, r)].slot;
    && TransferAt(w, s).helper == Data(w, r) && s in w.rings[r].node.directMap
    && var here := w.rings[r].node.directMap[s];
    && TransferAt(w, s).stage == TaskSent(here)
    && HolderOk(w, Key(0, s), w.past.hold[Key(0, s)]) && HolderOk(w, Key(r, here), w.past.hold[Key(r, here)])
    && w.past.hold[Key(r, here)] == Arriving(s) && w.SockAt(Key(0, s)) == w.SockAt(Key(r, here))
  }

  /** When a worker comes to a connection's task message, its map holds the slot that was installed
      for the very socket that the sender's slot is open for. */
  lemma LookupIsCorrect(w: World, r: nat)
    requires Inv(w) && AtHead(w, r) && w.mem[Data(w, r)].ConnMessage?
    ensures ConnAtHead(w, r)
  {
    var s := w.mem[Data(w, r)].slot;
    AboutCell(w, Data(w, r));
    HeldIsOpen(w, Key(0, s));
    var m := w.rings[r].node.directMap;
    assert s in m;
    assert MapEntryOk(w, r, s, m[s]);
    HeldIsOpen(w, Key(r, m[s]));
  }

  function ConnScope(w: World, r: nat, s: int, here: int, c: ConnId): Scope
    requires r < |w.rings| && w.rings[r].cq != []
  {
    Scope({Data(w, r)}, {}, {Key(0, s), Key(r, here)}, {c})
  }

  ghost predicate FreshNames(w: World, r: nat, notice: Addr, id: OpId, c: ConnId)
    requires r < |w.rings| && w.rings[r].cq != []
  {
    notice !in w.mem.Keys - {Data(w, r)} && notice != NULL && id !in w.ops && c !in w.conns
  }

  // The state after it, of a connection at the head.
  function ConnDone(w: World, r: nat, notice: Addr, id: OpId, c: ConnId): World
    requires r < |w.rings| && w.rings[r].cq != [] && Data(w, r) in w.mem && w.mem[Data(w, r)].ConnMessage?
    requires w.mem[Data(w, r)].slot in w.rings[r].node.directMap
      && w.Open(Key(r, w.rings[r].node.directMap[w.mem[Data(w, r)].slot]))
  {
    var m := w.mem[Data(w, r)];
    ConnHandled(w, r, m.slot, w.rings[r].node.directMap[m.slot], m.func, notice, id, c)
  }

  lemma ConnSlotsApart(w: World, r: nat, notice: Addr, id: OpId, c: ConnId)
    requires ConnAtHead(w, r) && FreshNames(w, r, notice, id, c)
    ensures var s := w.mem[Data(w, r)].slot;
      SameSlots(w, ConnDone(w, r, notice, id, c), ConnScope(w, r, s, w.rings[r].node.directMap[s], c))
  {
    var s := w.mem[Data(w, r)].slot;
    var w', x := ConnDone(w, r, notice, id, c), ConnScope(w, r, s, w.rings[r].node.directMap[s], c);
    assert AtHome(w, Key(0, s));
    forall k: Key | k !in x.keys ensures SameSlot(w, w', k) {}
  }

  lemma ConnStep(w: World, r: nat, notice: Addr, id: OpId, c: ConnId)
    requires ConnAtHead(w, r) && FreshNames(w, r, notice, id, c)
    ensures var s := w.mem[Data(w, r)].slot;
      TransferStep(w, ConnDone(w, r, notice, id, c), ConnScope(w, r, s, w.rings[r].node.directMap[s], c), s)
  {
    var s := w.mem[Data(w, r)].slot;
    var w', x := ConnDone(w, r, notice, id, c), ConnScope(w, r, s, w.rings[r].node.directMap[s], c);
    ConnSlotsApart(w, r, notice, id, c);
    ConnMessagesApart(w, r, notice, id, c);
  }

  lemma ConnMessagesApart(w: World, r: nat, notice: Addr, id: OpId, c: ConnId)
    requires ConnAtHead(w, r) && FreshNames(w, r, notice, id, c)
    ensures var s := w.mem[Data(w, r)].slot;
      SameMessages(w, ConnDone(w, r, notice, id, c), ConnScope(w, r, s, w.rings[r].node.directMap[s], c))
  {
    var s := w.mem[Data(w, r)].slot;
    MessagesPopped(w, ConnDone(w, r, notice, id, c), ConnScope(w, r, s, w.rings[r].node.directMap[s], c), r);
  }

  lemma ConnHolderOk(w: World, r: nat, notice: Addr, id: OpId, c: ConnId)
    requires ConnAtHead(w, r) && FreshNames(w, r, notice, id, c)
    ensures var w', s := ConnDone(w, r, notice, id, c), w.mem[Data(w, r)].slot;
      && var here := Key(r, w.rings[r].node.directMap[s]);
      && HolderOk(w', Key(0, s), w'.past.hold[Key(0, s)]) && HolderOk(w', here, w'.past.hold[here])
      && ConnOk(w', c, w'.conns[c])
  {}

  lemma ConnHolders(w: World, r: nat, notice: Addr, id: OpId, c: ConnId)
    requires Inv(w) && ConnAtHead(w, r) && FreshNames(w, r, notice, id, c)
    ensures var w', s := ConnDone(w, r, notice, id, c), w.mem[Data(w, r)].slot;
      && var x := ConnScope(w, r, s, w.rings[r].node.directMap[s], c);
      && TransferHolders(w, w', x, s) && TransferConns(w, w', x)
  {
    var w', s := ConnDone(w, r, notice, id, c), w.mem[Data(w, r)].slot;
    var key := Key(r, w.rings[r].node.directMap[s]);
    AboutTransfer(w, s);
    ConnHolderOk(w, r, notice, id, c);
    StaysAlone(w, w', key);
    NoticeIsNew(w, r, notice, id, c);
  }

  // No other slot waits for the notice, though its address may have been the helper's.
  lemma NoticeIsNew(w: World, r: nat, notice: Addr, id: OpId, c: ConnId)
    requires Inv(w) && ConnAtHead(w, r) && FreshNames(w, r, notice, id, c)
    ensures Alone(ConnDone(w, r, notice, id, c), Key(0, w.mem[Data(w, r)].slot))
  {
    var w', key := ConnDone(w, r, notice, id, c), Key(0, w.mem[Data(w, r)].slot);
    assert Alone(w, key);
    forall l | l in w.past.hold ensures w.past.hold[l] != Releasing(notice) { assert HolderOk(w, l, w.past.hold[l]); }
  }

  lemma ConnMaps(w: World, r: nat, notice: Addr, id: OpId, c: ConnId)
    requires Inv(w) && ConnAtHead(w, r) && FreshNames(w, r, notice, id, c)
    ensures TransferMaps(w, ConnDone(w, r, notice, id, c), w.mem[Data(w, r)].slot)
  {
    var s, w' := w.mem[Data(w, r)].slot, ConnDone(w, r, notice, id, c);
    forall q | 0 <= q < |w.rings| ensures s !in w'.rings[q].node.directMap {
      assert s in w.rings[q].node.directMap ==> MapEntryOk(w, q, s, w.rings[q].node.directMap[s]);
    }
  }

  lemma ConnMessages(w: World, r: nat, notice: Addr, id: OpId, c: ConnId)
    requires Inv(w) && ConnAtHead(w, r) && FreshNames(w, r, notice, id, c)
    ensures var w', s := ConnDone(w, r, notice, id, c), w.mem[Data(w, r)].slot;
      w'.past.loc.Keys == w'.mem.Keys && TransferCells(w, w', s) && TransferOps(w, w', s)
  {
    var s, a, w' := w.mem[Data(w, r)].slot, Data(w, r), ConnDone(w, r, notice, id, c);
    AboutTransfer(w, s);
    NothingElse(w, r, s);
    NoticeOk(w, r, notice, id, c);
  }

  lemma NoticeOk(w: World, r: nat, notice: Addr, id: OpId, c: ConnId)
    requires ConnAtHead(w, r) && FreshNames(w, r, notice, id, c)
    ensures var w' := ConnDone(w, r, notice, id, c);
      OpOk(w', id, w'.ops[id]) && CellOk(w', notice, w'.mem[notice], w'.past.loc[notice])
  {
    assert !HasTaskFlag(0);
    assert Dispatch(Entry(PlainMessage(w.mem[Data(w, r)].slot, notice))).TokenBranch?;
  }

  // Nothing is left of the transfer but its task message.
  lemma NothingElse(w: World, r: nat, s: int)
    requires Inv(w) && ConnAtHead(w, r) && s == w.mem[Data(w, r)].slot
    ensures forall b | AddrOf(w, b, s) :: b == Data(w, r)
    ensures forall id | id in w.ops :: !OpOf(w, id, s)
  {
    AboutTransfer(w, s);
    forall id | id in w.ops ensures !OpOf(w, id, s) { assert OpOk(w, id, w.ops[id]); }
    forall b | AddrOf(w, b, s) ensures b == Data(w, r) { assert CellOk(w, b, w.mem[b], w.past.loc[b]); }
  }

  lemma ConnQueues(w: World, r: nat, notice: Addr, id: OpId, c: ConnId)
    requires Inv(w) && ConnAtHead(w, r) && FreshNames(w, r, notice, id, c)
    ensures var s := w.mem[Data(w, r)].slot;
      TransferQueues(w, ConnDone(w, r, notice, id, c), ConnScope(w, r, s, w.rings[r].node.directMap[s], c))
  {
    var s := w.mem[Data(w, r)].slot;
    var w', x := ConnDone(w, r, notice, id, c), ConnScope(w, r, s, w.rings[r].node.directMap[s], c);
    ConnStep(w, r, notice, id, c);
    NothingElse(w, r, s);
    assert QueueOk(w, r);
    HeadTransferQueues(w, w', r, s, x);
  }

  lemma ConnHandledKeeps(w: World, r: nat, notice: Addr, id: OpId, c: ConnId)
    requires Inv(w) && ConnAtHead(w, r) && FreshNames(w, r, notice, id, c)
    ensures Inv(ConnDone(w, r, notice, id, c))
  {
    var s := w.mem[Data(w, r)].slot;
    var w', x := ConnDone(w, r, notice, id, c), ConnScope(w, r, s, w.rings[r].node.directMap[s], c);
    ConnStep(w, r, notice, id, c);
    ConnHolders(w, r, notice, id, c);
    ConnMaps(w, r, notice, id, c);
    ConnMessages(w, r, notice, id, c);
    ConnQueues(w, r, notice, id, c);
    TransferKeeps(w, w', x, s);
  }

  // -- All branches

  /** Whatever is at the head of a queue, handling it finds its data there and of the right kind. */
  lemma HandlingNeverFails(w: World, alloc: Alloc, r: nat, id: OpId, c: ConnId)
    requires Inv(w) && r < |w.rings| && w.rings[r].cq != [] && id !in w.ops && c !in w.conns
    ensures CanHandle(w, alloc, r, id, c)
  {
    HeadIs(w, r);
    var m := w.mem[Data(w, r)];
    if m.TaskMessage? { HandleIsTask(w, alloc, r, id, c); }
    else if m.ConnMessage? { LookupIsCorrect(w, r); HandleIsConn(w, alloc, r, id, c); }
    else if m.op.RingFdReceiver? { HandleIsFd(w, alloc, r, id, c); }
    else if m.op in {RingFdSender, RingTask} { HandleIsSender(w, alloc, r, id, c); }
    else if m.op.MainRingCloseDirectSocket? { HandleIsRelease(w, alloc, r, id, c); }
    else { HandleIsIo(w, alloc, r, id, c); }
  }

  lemma HandleKeeps(w: World, alloc: Alloc, r: nat, id: OpId, c: ConnId)
    requires Inv(w) && GoodAlloc(alloc) && CanHandle(w, alloc, r, id, c)
    ensures Inv(HandleHead(w, alloc, r, id, c))
  {
    HeadIs(w, r);
    var m := w.mem[Data(w, r)];
    if m.TaskMessage? { HandleIsTask(w, alloc, r, id, c); TaskHandledKeeps(w, r); }
    else if m.ConnMessage? {
      LookupIsCorrect(w, r);
      HandleIsConn(w, alloc, r, id, c);
      ConnHandledKeeps(w, r, alloc(w.mem.Keys - {Data(w, r)}), id, c);
    }
    else if m.op.RingFdReceiver? { HandleIsFd(w, alloc, r, id, c); FdHandledKeeps(w, r); }
    else if m.op in {RingFdSender, RingTask} { HandleIsSender(w, alloc, r, id, c); SenderHandledKeeps(w, r); }
    else if m.op.MainRingCloseDirectSocket? { HandleIsRelease(w, alloc, r, id, c); ReleaseHandledKeeps(w, r, id); }
    else { HandleIsIo(w, alloc, r, id, c); IoHandledKeeps(w, r); }
  }
}
