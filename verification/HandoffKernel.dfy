/** The steps of the kernel, and the end of an awaiter, keep the invariant. */
module HandoffKernel {
  import opened Common
  import opened Messages
  import opened Connection
  import opened UringRing
  import opened Handoff
  import opened HandoffInvariant
  import opened HandoffFrame
  import opened HandoffOthers
  import opened HandoffSteps

  // -- Steps that belong to no transfer

  // What the parts of the invariant say about one thing each.
  lemma Parts(w: World)
    requires Inv(w)
    ensures forall k | k in w.past.hold :: HolderOk(w, k, w.past.hold[k])
    ensures forall a | a in w.mem :: a in w.past.loc && CellOk(w, a, w.mem[a], w.past.loc[a])
    ensures forall id | id in w.ops :: OpOk(w, id, w.ops[id])
    ensures forall r | 0 <= r < |w.rings| :: QueueOk(w, r)
    ensures forall c | c in w.conns :: ConnOk(w, c, w.conns[c])
  {}

  ghost predicate Tidy(w: World) {
    w.past.dead <= w.past.home.Keys && w.past.arrived <= w.past.spawned.Keys && w.past.loc.Keys == w.mem.Keys
  }

  // A step that only concerns messages, operations and slots that are on their way out.
  ghost predicate AsideStep(w: World, w': World, x: Scope) {
    && NoTransfer(w, x) && x.conns == {} && Apart(w, w', x)
    && w'.conns == w.conns
    && w'.past.dead <= w'.past.home.Keys && w'.past.arrived <= w'.past.spawned.Keys
    && (forall k | k in w'.past.hold && k !in x.keys :: k in w.past.hold)
    && (forall k | k in x.keys && w'.Open(k) :: k in w'.past.hold)
    && (forall r | 0 <= r < |w.rings| :: w'.rings[r].node.directMap == w.rings[r].node.directMap)
    && (forall c | c in w.conns :: Responsible(w.conns[c]) !in x.keys)
  }

  // What such a step has to show itself, part by part.

  ghost predicate AsideHolders(w: World, w': World, x: Scope) {
    && (forall k | k in w.past.hold && k !in x.keys && k in w'.past.hold
          && ((w.past.hold[k].Closing? && w.past.hold[k].op in x.ops)
             || (w.past.hold[k].Releasing? && w.past.hold[k].token in x.addrs)) ::
          HolderOk(w', k, w'.past.hold[k]))
    && (forall k | k in x.keys && k in w'.past.hold :: HolderOk(w', k, w'.past.hold[k]))
    && (forall k | k in x.keys && w'.Open(k) :: Alone(w', k))
  }

  ghost predicate AsideCells(w: World, w': World, x: Scope)
    requires w.past.loc.Keys == w.mem.Keys && w'.past.loc.Keys == w'.mem.Keys
  {
    forall a | a in w'.mem && (a !in w.mem || a in x.addrs || (w.past.loc[a].WithOp? && w.past.loc[a].op in x.ops)) ::
      CellOk(w', a, w'.mem[a], w'.past.loc[a])
  }

  ghost predicate AsideOps(w: World, w': World, x: Scope) {
    && (forall id | id in w'.ops && (id !in w.ops || id in x.ops) :: OpOk(w', id, w'.ops[id]))
    && (forall id | id in w.ops && id !in x.ops :: !MovesWith(w, x, id))
  }

  ghost predicate AsideQueues(w: World, w': World, x: Scope) {
    && (forall k | k in x.keys && k in w.past.hold && w.past.hold[k].Releasing? :: w.past.hold[k].token in x.addrs)
    && forall r | 0 <= r < |w.rings| == |w'.rings| ::
       (QueueOutside(w, r, x) && w'.rings[r].cq == w.rings[r].cq) || QueueOk(w', r)
  }

  ghost predicate MovesWith(w: World, x: Scope, id: OpId)
    requires id in w.ops
  {
    match w.ops[id]
    case Link(_, _, recv, sender, helper) => sender in x.addrs
    case Post(_, e) => e.data in x.addrs
    case Close(k) => k in x.keys
    case _ => false
  }

  lemma AsideKeeps(w: World, w': World, x: Scope)
    requires Inv(w) && AsideStep(w, w', x)
    requires AsideHolders(w, w', x) && AsideCells(w, w', x) && AsideOps(w, w', x) && AsideQueues(w, w', x)
    ensures Inv(w')
  {
    AsideSlots(w, w', x);
    AsideConns(w, w', x);
    AsideMaps(w, w', x);
    AsideMessages(w, w', x);
  }

  lemma AsideSlots(w: World, w': World, x: Scope)
    requires Inv(w) && AsideStep(w, w', x) && AsideHolders(w, w', x)
    ensures SlotsOk(w')
  {
    Parts(w);
    forall k | k in w'.past.hold && !(k in w.past.hold && HolderOutside(w, k, w.past.hold[k], x))
      ensures HolderOk(w', k, w'.past.hold[k])
    {
      if !HolderOk(w', k, w'.past.hold[k]) { HoldersAside(w, x, k); }
    }
    SlotsKept(w, w', x);
  }

  lemma AsideConns(w: World, w': World, x: Scope)
    requires Inv(w) && AsideStep(w, w', x)
    ensures ConnsOk(w')
  {
    ConnsKept(w, w', x);
  }

  lemma AsideMaps(w: World, w': World, x: Scope)
    requires Inv(w) && AsideStep(w, w', x)
    ensures MapsOk(w')
  {
    forall r, s | 0 <= r < |w'.rings| && s in w'.rings[r].node.directMap ensures Key(0, s) !in x.keys {
      assert MapEntryOk(w, r, s, w.rings[r].node.directMap[s]);
    }
    MapsKept(w, w', x);
  }

  lemma AsideMessages(w: World, w': World, x: Scope)
    requires Inv(w) && AsideStep(w, w', x)
    requires AsideCells(w, w', x) && AsideOps(w, w', x) && AsideQueues(w, w', x)
    ensures MessagesOk(w')
  {
    Parts(w);
    forall a | a in w'.mem && !CellOk(w', a, w'.mem[a], w'.past.loc[a]) ensures a in w.mem && CellOutside(w, a, x) {
      CellsAside(w, x, a);
    }
    forall id | id in w'.ops && !OpOk(w', id, w'.ops[id]) ensures id in w.ops && OpOutside(w, id, x) {
      if w.ops[id].Post? { EntriesAside(w, x, w.ops[id].ring, w.ops[id].cqe); }
    }
    MessagesKept(w, w', x);
  }

  lemma QueueAside(w: World, x: Scope, r: nat)
    requires NoTransfer(w, x) && r < |w.rings| && QueueOk(w, r)
    requires forall k | k in x.keys && k in w.past.hold && w.past.hold[k].Releasing? :: w.past.hold[k].token in x.addrs
    requires forall a | a in x.addrs :: w.past.loc[a] != InQueue(r)
    ensures QueueOutside(w, r, x)
  {
    forall i | 0 <= i < |w.rings[r].cq| ensures w.rings[r].cq[i].data in w.mem && EntryOutside(w, w.rings[r].cq[i], x) {
      assert EntryOk(w, r, w.rings[r].cq[i]) && IsAt(w, w.rings[r].cq[i].data, InQueue(r));
      EntriesAside(w, x, r, w.rings[r].cq[i]);
    }
  }

  // What the rest of the state says about one message.
  lemma AboutCell(w: World, a: Addr)
    requires Inv(w) && a in w.mem
    ensures a in w.past.loc && CellOk(w, a, w.mem[a], w.past.loc[a])
    ensures forall k | k in w.past.hold && w.past.hold[k] == Releasing(a) ::
      w.mem[a].Token? && w.mem[a].op.MainRingCloseDirectSocket? && HolderOk(w, k, Releasing(a))
    ensures forall id | id in w.ops && MovesWith(w, Scope({a}, {}, {}, {}), id) :: w.past.loc[a] == WithOp(id)
  {
    forall id | id in w.ops && MovesWith(w, Scope({a}, {}, {}, {}), id) ensures w.past.loc[a] == WithOp(id) {
      assert OpOk(w, id, w.ops[id]);
    }
    forall k | k in w.past.hold && w.past.hold[k] == Releasing(a)
      ensures w.mem[a].Token? && w.mem[a].op.MainRingCloseDirectSocket? && HolderOk(w, k, Releasing(a))
    {
      assert HolderOk(w, k, Releasing(a));
    }
  }

  lemma AboutOp(w: World, id: OpId)
    requires Inv(w) && id in w.ops
    ensures OpOk(w, id, w.ops[id])
    ensures forall a | a in w.mem && a in w.past.loc && w.past.loc[a] == WithOp(id) :: Carries(w.ops[id], a)
    ensures forall k | k in w.past.hold && w.past.hold[k] == Closing(id) :: w.ops[id] == Close(k)
  {
    forall a | a in w.mem && a in w.past.loc && w.past.loc[a] == WithOp(id) ensures Carries(w.ops[id], a) {
      assert CellOk(w, a, w.mem[a], w.past.loc[a]);
    }
    forall k | k in w.past.hold && w.past.hold[k] == Closing(id) ensures w.ops[id] == Close(k) {
      assert HolderOk(w, k, Closing(id));
    }
  }

  lemma QueuesAside(w: World, x: Scope)
    requires Inv(w) && NoTransfer(w, x)
    requires forall k | k in x.keys && k in w.past.hold && w.past.hold[k].Releasing? :: w.past.hold[k].token in x.addrs
    ensures forall r | 0 <= r < |w.rings| && (forall a | a in x.addrs :: w.past.loc[a] != InQueue(r)) ::
      QueueOutside(w, r, x)
  {
    forall r | 0 <= r < |w.rings| && (forall a | a in x.addrs :: w.past.loc[a] != InQueue(r))
      ensures QueueOutside(w, r, x) {
      assert QueueOk(w, r);
      QueueAside(w, x, r);
    }
  }

  // The awaiter of a finished operation goes.

  lemma EndIoApart(w: World, a: Addr)
    requires w.past.loc.Keys == w.mem.Keys && CanEndIo(w, a)
    ensures Apart(w, EndIo(w, a), Scope({a}, {}, {}, {}))
  {
    var w', x := EndIo(w, a), Scope({a}, {}, {}, {});
    SlotsUntouched(w, w', x);
    MessagesAdded(w, w', x);
  }

  lemma EndIoKeeps(w: World, a: Addr)
    requires Inv(w) && CanEndIo(w, a)
    ensures Inv(EndIo(w, a))
  {
    AboutCell(w, a);
    EndIoApart(w, a);
    QueuesAside(w, Scope({a}, {}, {}, {}));
    AsideKeeps(w, EndIo(w, a), Scope({a}, {}, {}, {}));
  }

  // The kernel posts the completion of an operation.

  function PostScope(w: World, id: OpId): Scope
    requires CanExecPost(w, id)
  {
    Scope({w.ops[id].cqe.data}, {id}, {}, {})
  }

  lemma ExecPostApart(w: World, id: OpId)
    requires w.past.loc.Keys == w.mem.Keys && CanExecPost(w, id) && w.ops[id].cqe.data in w.mem
    ensures Apart(w, ExecPost(w, id), PostScope(w, id))
  {
    var w', x := ExecPost(w, id), PostScope(w, id);
    SlotsUntouched(w, w', x);
    MessagesAdded(w, w', x);
  }

  lemma ExecPostQueue(w: World, id: OpId)
    requires CanExecPost(w, id) && OpOk(w, id, w.ops[id]) && QueueOk(w, w.ops[id].ring)
    requires Apart(w, ExecPost(w, id), PostScope(w, id)) && NoTransfer(w, PostScope(w, id))
    ensures QueueOk(ExecPost(w, id), w.ops[id].ring)
  {
    var o := w.ops[id];
    var w', x := ExecPost(w, id), PostScope(w, id);
    QueueAside(w, x, o.ring);
    forall i | 0 <= i < |w.rings[o.ring].cq| ensures EntryKept(w, w', x, o.ring, i) {
      assert FdComesFirst(w, o.ring, i);
      FdFirstFrame(w, w', x, o.ring, i);
    }
    QueueGrows(w, w', x, o.ring, o.cqe);
  }

  lemma ExecPostCell(w: World, id: OpId)
    requires CanExecPost(w, id) && OpOk(w, id, w.ops[id])
    requires var a := w.ops[id].cqe.data; CellOk(w, a, w.mem[a], w.past.loc[a])
    ensures var w', a := ExecPost(w, id), w.ops[id].cqe.data; CellOk(w', a, w'.mem[a], w'.past.loc[a])
  {
    var q := ExecPost(w, id).rings[w.ops[id].ring].cq;
    assert q[|q| - 1].data == w.ops[id].cqe.data;
  }

  lemma ExecPostAside(w: World, id: OpId)
    requires Tidy(w) && CanExecPost(w, id) && OpOk(w, id, w.ops[id])
    ensures AsideStep(w, ExecPost(w, id), PostScope(w, id))
  {
    ExecPostApart(w, id);
  }

  lemma ExecPostRest(w: World, id: OpId)
    requires Inv(w) && CanExecPost(w, id)
    ensures var w', x := ExecPost(w, id), PostScope(w, id);
      w'.past.loc.Keys == w'.mem.Keys && AsideHolders(w, w', x) && AsideCells(w, w', x) && AsideOps(w, w', x)
  {
    AboutOp(w, id);
    AboutCell(w, w.ops[id].cqe.data);
    ExecPostCell(w, id);
  }

  lemma ExecPostQueues(w: World, id: OpId)
    requires Inv(w) && CanExecPost(w, id) && AsideStep(w, ExecPost(w, id), PostScope(w, id))
    ensures AsideQueues(w, ExecPost(w, id), PostScope(w, id))
  {
    AboutOp(w, id);
    assert QueueOk(w, w.ops[id].ring);
    ExecPostQueue(w, id);
    QueuesAside(w, PostScope(w, id));
  }

  lemma ExecPostKeeps(w: World, id: OpId)
    requires Inv(w) && CanExecPost(w, id)
    ensures Inv(ExecPost(w, id))
  {
    AboutOp(w, id);
    ExecPostAside(w, id);
    ExecPostRest(w, id);
    ExecPostQueues(w, id);
    AsideKeeps(w, ExecPost(w, id), PostScope(w, id));
  }

  // The kernel closes a slot, or does nothing when asked to close no slot.

  function CloseScope(w: World, id: OpId): Scope
    requires CanExecClose(w, id)
  {
    Scope({}, {id}, if w.ops[id].key.slot >= 0 then {w.ops[id].key} else {}, {})
  }

  lemma ExecCloseApart(w: World, id: OpId)
    requires w.past.loc.Keys == w.mem.Keys && CanExecClose(w, id)
    requires w.ops[id].key.slot < 0 ==> w.ops[id].key !in w.past.hold && !w.Open(w.ops[id].key)
    ensures Apart(w, ExecClose(w, id), CloseScope(w, id))
  {
    var w', x := ExecClose(w, id), CloseScope(w, id);
    MessagesAdded(w, w', x);
    forall k: Key | k !in x.keys ensures SameSlot(w, w', k) {}
  }

  lemma NoSlotIsClosed(w: World, k: Key)
    requires Inv(w) && k.slot < 0
    ensures k !in w.past.hold && !w.Open(k)
  {
    if k in w.past.hold { HeldIsOpen(w, k); }
  }

  lemma OneClose(w: World, id: OpId, id2: OpId)
    requires Inv(w) && CanExecClose(w, id) && id2 in w.ops && id2 != id
    ensures !MovesWith(w, CloseScope(w, id), id2)
  {
    AboutOp(w, id);
    AboutOp(w, id2);
  }

  lemma ExecCloseAside(w: World, id: OpId)
    requires Tidy(w) && CanExecClose(w, id) && OpOk(w, id, w.ops[id])
    requires w.ops[id].key.slot < 0 ==> w.ops[id].key !in w.past.hold && !w.Open(w.ops[id].key)
    requires forall c | c in w.conns :: ConnOk(w, c, w.conns[c])
    ensures AsideStep(w, ExecClose(w, id), CloseScope(w, id))
  {
    ExecCloseApart(w, id);
    forall c | c in w.conns ensures Responsible(w.conns[c]) !in CloseScope(w, id).keys {
      assert ConnOk(w, c, w.conns[c]);
    }
  }

  lemma ExecCloseRest(w: World, id: OpId)
    requires Inv(w) && CanExecClose(w, id)
    ensures var w', x := ExecClose(w, id), CloseScope(w, id);
      w'.past.loc.Keys == w'.mem.Keys && AsideHolders(w, w', x) && AsideCells(w, w', x) && AsideOps(w, w', x)
  {
    AboutOp(w, id);
    forall id2 | id2 in w.ops && id2 != id ensures !MovesWith(w, CloseScope(w, id), id2) { OneClose(w, id, id2); }
  }

  lemma ExecCloseKeeps(w: World, id: OpId)
    requires Inv(w) && CanExecClose(w, id)
    ensures Inv(ExecClose(w, id))
  {
    AboutOp(w, id);
    if w.ops[id].key.slot < 0 { NoSlotIsClosed(w, w.ops[id].key); }
    ExecCloseAside(w, id);
    ExecCloseRest(w, id);
    QueuesAside(w, CloseScope(w, id));
    AsideKeeps(w, ExecClose(w, id), CloseScope(w, id));
  }
}
