/** What every state of the hand-off protocol satisfies. */
module HandoffInvariant {
  import opened Common
  import opened Messages
  import opened Connection
  import opened UringRing
  import opened Handoff

  // -- Slots and their holders

  ghost predicate SendingAt(w: World, s: int) { Key(0, s) in w.past.hold && w.past.hold[Key(0, s)].Sending? }

  function TransferAt(w: World, s: int): Transfer
    requires SendingAt(w, s)
  {
    w.past.hold[Key(0, s)].h
  }

  // The connection's socket is alive and at home in this slot.
  ghost predicate AtHome(w: World, k: Key) {
    && w.Open(k) && w.SockAt(k) in w.past.home && w.past.home[w.SockAt(k)] == k && w.SockAt(k) !in w.past.dead
  }

  // The worker has slot `there` for main slot `s`: its map says so, or will once the descriptor's
  // completion is handled.
  ghost predicate HasArrived(w: World, s: int, h: Transfer, there: int)
    requires w.IsWorker(h.worker)
  {
    var key, map_ := Key(h.worker, there), w.rings[h.worker].node.directMap;
    && key in w.past.hold && w.past.hold[key] == Arriving(s)
    && if s in map_ then map_[s] == there
       else IsAt(w, h.recv, InQueue(h.worker)) && IsReceiver(w.mem[h.recv], s)
  }

  ghost predicate IsReceiver(c: Cell, s: int) { c.Token? && c.op.RingFdReceiver? && c.res == s }
  ghost predicate IsConnMessage(c: Cell, s: int) { c.ConnMessage? && c.slot == s }

  ghost predicate HolderOk(w: World, k: Key, h: Holder) {
    && k.slot >= 0 && w.Open(k) && w.SockAt(k) in w.past.home
    && match h
       case OwnedBy(c) => c in w.conns && Responsible(w.conns[c]) == k && AtHome(w, k)
       case Sending(x) =>
         && k.ring == 0 && w.IsWorker(x.worker) && AtHome(w, k)
         && x.helper in w.mem && x.helper in w.past.loc && IsConnMessage(w.mem[x.helper], k.slot)
         && (match x.stage
             case Linked =>
               && x.op in w.ops && w.ops[x.op].Link? && w.ops[x.op].target == x.worker && w.ops[x.op].slot == k.slot
               && w.ops[x.op].recv == x.recv && w.ops[x.op].helper == x.helper
               && k.slot !in w.rings[x.worker].node.directMap
             case FdSent(there) =>
               x.op in w.ops && w.ops[x.op] == LinkTask(x.worker, x.helper) && HasArrived(w, k.slot, x, there)
             case TaskSent(there) => w.past.loc[x.helper] == InQueue(x.worker) && HasArrived(w, k.slot, x, there))
       case Arriving(s) =>
         && k.ring >= 1 && SendingAt(w, s) && TransferAt(w, s).worker == k.ring
         && (TransferAt(w, s).stage == FdSent(k.slot) || TransferAt(w, s).stage == TaskSent(k.slot))
         && w.Open(Key(0, s)) && w.SockAt(Key(0, s)) == w.SockAt(k)
       case Releasing(token) =>
         k.ring == 0 && token in w.mem && w.mem[token].Token? && w.mem[token].op.MainRingCloseDirectSocket?
       case Closing(op) => op in w.ops && w.ops[op] == Close(k) && (k.ring >= 1 ==> w.SockAt(k) in w.past.dead)
       case Leaked => w.SockAt(k) in w.past.dead
  }

  // No other slot of the same ring is open for the same socket, or waits for the same notice.
  ghost predicate Alone(w: World, k: Key) {
    forall l | l in w.past.hold && k != l ::
      && (k.ring == l.ring && w.Open(k) && w.Open(l) ==> w.SockAt(k) != w.SockAt(l))
      && (k in w.past.hold && w.past.hold[k].Releasing? ==> w.past.hold[l] != w.past.hold[k])
  }

  ghost predicate SlotsOk(w: World) {
    && (forall r, s {:trigger Key(r, s)} | 0 <= r < |w.rings| && s in w.rings[r].table :: Key(r, s) in w.past.hold)
    && (forall k {:trigger HolderOk(w, k, w.past.hold[k])} | k in w.past.hold :: HolderOk(w, k, w.past.hold[k]))
    && (forall k {:trigger Alone(w, k)} | k in w.past.hold :: Alone(w, k))
  }

  // -- Connections, worker maps

  ghost predicate ConnOk(w: World, c: ConnId, p: Placed) {
    && p.ring < |w.rings| && p.conn.socket >= -1
    && (p.conn.ownedInSysRing ==> p.ring == 0 && p.conn.inThisRing == NO_SLOT)
    && (!p.conn.ownedInSysRing && p.conn.inThisRing > -1 ==> p.ring >= 1 && p.conn.socket == p.conn.inThisRing)
    && (Responsible(p).slot >= 0 ==> Responsible(p) in w.past.hold && w.past.hold[Responsible(p)] == OwnedBy(c))
  }

  ghost predicate ConnsOk(w: World) {
    forall c {:trigger ConnOk(w, c, w.conns[c])} | c in w.conns :: ConnOk(w, c, w.conns[c])
  }

  ghost predicate MapEntryOk(w: World, r: nat, s: int, there: int) {
    && SendingAt(w, s) && TransferAt(w, s).worker == r
    && (TransferAt(w, s).stage == FdSent(there) || TransferAt(w, s).stage == TaskSent(there))
  }

  ghost predicate MapsOk(w: World) {
    forall r, s {:trigger MapEntryOk(w, r, s, w.rings[r].node.directMap[s])} |
      0 <= r < |w.rings| && s in w.rings[r].node.directMap :: MapEntryOk(w, r, s, w.rings[r].node.directMap[s])
  }

  // -- Messages

  ghost predicate Carries(o: KernelOp, a: Addr) {
    match o
    case Link(_, _, recv, sender, helper) => a == recv || a == sender || a == helper
    case LinkTask(_, helper) => a == helper
    case Post(_, cqe) => a == cqe.data
    case Close(_) => false
  }

  ghost predicate InQueueAt(w: World, r: nat, a: Addr) {
    r < |w.rings| && exists i | 0 <= i < |w.rings[r].cq| :: w.rings[r].cq[i].data == a
  }

  ghost predicate CellOk(w: World, a: Addr, c: Cell, l: Loc) {
    && a != NULL
    && (match l
        case WithOp(id) => id in w.ops && Carries(w.ops[id], a)
        case InQueue(r) => InQueueAt(w, r, a)
        case InFrame => c.Token? && Awaited(c.op))
    && match c
       case TaskMessage(t) => t in w.past.spawned && w.past.spawned[t].msg == a && t !in w.past.arrived
       case ConnMessage(_, s) => SendingAt(w, s) && TransferAt(w, s).helper == a
       case MultiMessage(_) => false
       case Token(op, _, s, _) =>
         op.RingFdReceiver? ==> SendingAt(w, s) && TransferAt(w, s).recv == a && w.IsWorker(TransferAt(w, s).worker)
                                && s !in w.rings[TransferAt(w, s).worker].node.directMap
  }

  // An entry of ring `r`'s queue, or one about to be: it is dispatched as what it points at.
  ghost predicate EntryOk(w: World, r: nat, e: Cqe)
    requires r < |w.rings|
  {
    e.data in w.mem &&
    match w.mem[e.data]
    case TaskMessage(t) => Dispatch(e).TaskBranch? && t in w.past.spawned && w.past.spawned[t].ring == r
    case ConnMessage(_, s) =>
      Dispatch(e).ConnBranch? && SendingAt(w, s) && TransferAt(w, s).worker == r && TransferAt(w, s).stage.TaskSent?
    case MultiMessage(_) => false
    case Token(op, root, s, _) =>
      && Dispatch(e).TokenBranch?
      && (if op.RingFdReceiver? then
            && SendingAt(w, s) && TransferAt(w, s).worker == r
            && (TransferAt(w, s).stage == FdSent(e.res) || TransferAt(w, s).stage == TaskSent(e.res))
          else if op.RingFdSender? || op.RingTask? then r == 0
          else if op.MainRingCloseDirectSocket? then
            r == 0 && Key(0, e.res) in w.past.hold && w.past.hold[Key(0, e.res)] == Releasing(e.data)
          else Awaited(op) && root < |w.rings[r].node.peer|)
  }

  ghost predicate IsAt(w: World, a: Addr, l: Loc) { a in w.mem && a in w.past.loc && w.past.loc[a] == l }

  ghost predicate OpOk(w: World, id: OpId, o: KernelOp) {
    match o
    case Link(target, s, recv, sender, helper) =>
      && IsAt(w, recv, WithOp(id)) && IsAt(w, sender, WithOp(id)) && IsAt(w, helper, WithOp(id))
      && IsReceiver(w.mem[recv], s) && IsConnMessage(w.mem[helper], s)
      && w.mem[sender].Token? && w.mem[sender].op.RingFdSender?
      && SendingAt(w, s) && TransferAt(w, s) == Transfer(target, helper, recv, id, Linked)
    case LinkTask(target, helper) =>
      && IsAt(w, helper, WithOp(id)) && w.mem[helper].ConnMessage?
      && var s := w.mem[helper].slot;
      && SendingAt(w, s) && TransferAt(w, s).worker == target && TransferAt(w, s).op == id
         && TransferAt(w, s).stage.FdSent?
    case Post(r, e) =>
      && r < |w.rings| && IsAt(w, e.data, WithOp(id)) && EntryOk(w, r, e)
      && !w.mem[e.data].ConnMessage? && !(w.mem[e.data].Token? && w.mem[e.data].op.RingFdReceiver?)
    case Close(k) =>
      && k.ring < |w.rings| && k.slot >= -1
      && (k.slot >= 0 ==> k in w.past.hold && w.past.hold[k] == Closing(id))
  }

  ghost predicate QueueOk(w: World, r: nat)
    requires r < |w.rings|
  {
    var cq := w.rings[r].cq;
    && w.rings[r].node.submitted == []
    && (forall i {:trigger EntryOk(w, r, cq[i])} {:trigger IsAt(w, cq[i].data, InQueue(r))} | 0 <= i < |cq| ::
          EntryOk(w, r, cq[i]) && IsAt(w, cq[i].data, InQueue(r)))
    && (forall i, j | 0 <= i < j < |cq| :: cq[i].data != cq[j].data)
    && (forall j {:trigger FdComesFirst(w, r, j)} | 0 <= j < |cq| :: FdComesFirst(w, r, j))
  }

  // A connection's task message comes after its descriptor's, unless that one has been handled.
  ghost predicate FdComesFirst(w: World, r: nat, j: nat)
    requires r < |w.rings| && j < |w.rings[r].cq|
  {
    var a := w.rings[r].cq[j].data;
    && a in w.mem && w.mem[a].ConnMessage?
    && w.mem[a].slot !in w.rings[r].node.directMap && SendingAt(w, w.mem[a].slot) ==>
      exists i | 0 <= i < j :: w.rings[r].cq[i].data == TransferAt(w, w.mem[a].slot).recv
  }

  ghost predicate MessagesOk(w: World) {
    && w.past.loc.Keys == w.mem.Keys
    && (forall a {:trigger CellOk(w, a, w.mem[a], w.past.loc[a])} | a in w.mem :: CellOk(w, a, w.mem[a], w.past.loc[a]))
    && (forall id {:trigger OpOk(w, id, w.ops[id])} | id in w.ops :: OpOk(w, id, w.ops[id]))
    && (forall r {:trigger QueueOk(w, r)} | 0 <= r < |w.rings| :: QueueOk(w, r))
  }

  ghost predicate Inv(w: World) {
    |w.rings| > 0 && w.past.dead <= w.past.home.Keys && w.past.arrived <= w.past.spawned.Keys && SlotsOk(w)
      && ConnsOk(w) && MapsOk(w) && MessagesOk(w)
  }
}
