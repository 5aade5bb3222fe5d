/** What a step of one transfer, or of one message, has nothing to do with. */
module HandoffOthers {
  import opened Common
  import opened Messages
  import opened Connection
  import opened UringRing
  import opened Handoff
  import opened HandoffInvariant
  import opened HandoffFrame

  // -- A step of the transfer of main slot `s`

  ghost predicate OpOf(w: World, id: OpId, s: int) {
    id in w.ops &&
    match w.ops[id]
    case Link(_, slot, _, _, _) => slot == s
    case LinkTask(_, helper) => helper in w.mem && IsConnMessage(w.mem[helper], s)
    case _ => false
  }

  ghost predicate AddrOf(w: World, a: Addr, s: int) {
    && a in w.mem && a in w.past.loc
    && (IsConnMessage(w.mem[a], s) || IsReceiver(w.mem[a], s)
        || (w.mem[a].Token? && w.mem[a].op.RingFdSender? && w.past.loc[a].WithOp? && OpOf(w, w.past.loc[a].op, s)))
  }

  ghost predicate ScopeOf(w: World, x: Scope, s: int) {
    && (forall a | a in x.addrs :: AddrOf(w, a, s))
    && (forall id | id in x.ops :: OpOf(w, id, s))
    && (forall k | k in x.keys ::
       k.slot >= 0 && (k == Key(0, s) || (k.ring >= 1 && (k in w.past.hold ==> w.past.hold[k] == Arriving(s)))))
  }

  lemma CellsApart(w: World, x: Scope, s: int, a: Addr)
    requires SendingAt(w, s) && ScopeOf(w, x, s)
    requires a in w.mem && a in w.past.loc && CellOk(w, a, w.mem[a], w.past.loc[a]) && !AddrOf(w, a, s)
    requires w.past.loc[a].WithOp? && OpOf(w, w.past.loc[a].op, s) ==>
      OpOk(w, w.past.loc[a].op, w.ops[w.past.loc[a].op])
    ensures CellOutside(w, a, x)
  {}

  lemma EntriesApart(w: World, x: Scope, s: int, r: nat, e: Cqe)
    requires SendingAt(w, s) && ScopeOf(w, x, s)
    requires r < |w.rings| && EntryOk(w, r, e) && !AddrOf(w, e.data, s) && e.data in w.past.loc
    ensures EntryOutside(w, e, x)
  {}

  lemma OpsApart(w: World, x: Scope, s: int, id: OpId)
    requires SendingAt(w, s) && ScopeOf(w, x, s) && id in w.ops && OpOk(w, id, w.ops[id]) && !OpOf(w, id, s)
    ensures OpOutside(w, id, x)
  {
    if w.ops[id].Post? { EntriesApart(w, x, s, w.ops[id].ring, w.ops[id].cqe); }
  }

  lemma HoldersApart(w: World, x: Scope, s: int, k: Key)
    requires SendingAt(w, s) && ScopeOf(w, x, s)
    requires k in w.past.hold && HolderOk(w, k, w.past.hold[k]) && k != Key(0, s) && w.past.hold[k] != Arriving(s)
    requires w.past.hold[k].Sending? && w.past.hold[k].h.op in w.ops ==>
      OpOk(w, w.past.hold[k].h.op, w.ops[w.past.hold[k].h.op])
    requires w.past.hold[k].OwnedBy? ==> w.past.hold[k].c !in x.conns
    ensures HolderOutside(w, k, w.past.hold[k], x)
  {}

  // -- A step of messages that belong to no transfer

  ghost predicate NoTransfer(w: World, x: Scope) {
    && (forall a | a in x.addrs ::
       a in w.mem && a in w.past.loc && !w.mem[a].ConnMessage? && !(w.mem[a].Token? && w.mem[a].op.RingFdReceiver?))
    && (forall id | id in x.ops :: id in w.ops && !w.ops[id].Link? && !w.ops[id].LinkTask?)
    && (forall k | k in x.keys :: k in w.past.hold ==> w.past.hold[k].Releasing? || w.past.hold[k].Closing?)
  }

  lemma CellsAside(w: World, x: Scope, a: Addr)
    requires NoTransfer(w, x) && a in w.mem && a in w.past.loc && CellOk(w, a, w.mem[a], w.past.loc[a])
    requires a !in x.addrs && !(w.past.loc[a].WithOp? && w.past.loc[a].op in x.ops)
    requires forall b | b in x.addrs :: b in w.mem && b in w.past.loc && CellOk(w, b, w.mem[b], w.past.loc[b])
    ensures CellOutside(w, a, x)
  {}

  lemma EntriesAside(w: World, x: Scope, r: nat, e: Cqe)
    requires NoTransfer(w, x) && r < |w.rings| && EntryOk(w, r, e) && e.data !in x.addrs
    requires forall k | k in x.keys && k in w.past.hold && w.past.hold[k].Releasing? :: w.past.hold[k].token in x.addrs
    ensures EntryOutside(w, e, x)
  {}

  lemma HoldersAside(w: World, x: Scope, k: Key)
    requires NoTransfer(w, x) && k in w.past.hold && HolderOk(w, k, w.past.hold[k]) && k !in x.keys
    requires w.past.hold[k].Sending? && w.past.hold[k].h.op in w.ops ==>
      OpOk(w, w.past.hold[k].h.op, w.ops[w.past.hold[k].h.op])
    requires w.past.hold[k].OwnedBy? ==> w.past.hold[k].c !in x.conns
    requires w.past.hold[k].Closing? ==> w.past.hold[k].op !in x.ops
    requires w.past.hold[k].Releasing? ==> w.past.hold[k].token !in x.addrs
    ensures HolderOutside(w, k, w.past.hold[k], x)
  {}

  // -- Queues

  lemma QueueGrows(w: World, w': World, x: Scope, r: nat, e: Cqe)
    requires Apart(w, w', x) && r < |w.rings| && QueueOk(w, r)
    requires w'.rings[r].cq == w.rings[r].cq + [e]
    requires forall i | 0 <= i < |w.rings[r].cq| :: EntryKept(w, w', x, r, i)
    requires EntryOk(w', r, e) && IsAt(w', e.data, InQueue(r)) && FdComesFirst(w', r, |w.rings[r].cq|)
    requires e.data in w.past.loc ==> w.past.loc[e.data] != InQueue(r)
    ensures QueueOk(w', r)
  {
    var cq, cq' := w.rings[r].cq, w'.rings[r].cq;
    forall i | 0 <= i < |cq'| ensures EntryOk(w', r, cq'[i]) && IsAt(w', cq'[i].data, InQueue(r)) {
      if i < |cq| { assert EntryKept(w, w', x, r, i); EntryStays(w, w', x, r, i); }
    }
    forall j | 0 <= j < |cq'| ensures FdComesFirst(w', r, j) {
      if j < |cq| { assert EntryKept(w, w', x, r, j); }
    }
    forall i | 0 <= i < |cq| ensures cq[i].data != e.data { assert IsAt(w, cq[i].data, InQueue(r)); }
  }

  // An entry that the step does not concern, or that is as good after it.
  ghost predicate EntryKept(w: World, w': World, x: Scope, r: nat, i: nat)
    requires r < |w.rings| == |w'.rings| && i < |w.rings[r].cq| < |w'.rings[r].cq|
  {
    var e := w.rings[r].cq[i];
    && e.data in w.mem
    && (EntryOutside(w, e, x) || (EntryOk(w', r, e) && IsAt(w', e.data, InQueue(r))))
    && FdComesFirst(w', r, i)
  }

  lemma EntryStays(w: World, w': World, x: Scope, r: nat, i: nat)
    requires Apart(w, w', x) && r < |w.rings| && i < |w.rings[r].cq| < |w'.rings[r].cq| && EntryKept(w, w', x, r, i)
    requires EntryOk(w, r, w.rings[r].cq[i]) && IsAt(w, w.rings[r].cq[i].data, InQueue(r))
    ensures EntryOk(w', r, w.rings[r].cq[i]) && IsAt(w', w.rings[r].cq[i].data, InQueue(r))
  {
    if EntryOutside(w, w.rings[r].cq[i], x) { EntryFrame(w, w', x, r, w.rings[r].cq[i]); }
  }

  // An entry that stays in the queue when the head goes: not one that the step concerns, or a
  // connection's task message that need not wait for its descriptor any more.
  ghost predicate StaysQueued(w: World, w': World, x: Scope, r: nat, i: nat)
    requires r < |w.rings| == |w'.rings| && i < |w.rings[r].cq|
  {
    var e := w.rings[r].cq[i];
    && e.data in w.mem
    && (EntryOutside(w, e, x)
        || (EntryOk(w', r, e) && IsAt(w', e.data, InQueue(r)) && w'.mem[e.data].ConnMessage?
            && w'.mem[e.data].slot in w'.rings[r].node.directMap))
  }

  // The head of a queue goes. It is not an entry that others wait for, or nobody waits for it any more.
  ghost predicate NobodyWaits(w: World, w': World, r: nat)
    requires r < |w.rings| == |w'.rings| && w.rings[r].cq != []
  {
    var a := w.rings[r].cq[0].data;
    a in w.mem && (w.mem[a].Token? && w.mem[a].op.RingFdReceiver? ==> w.mem[a].res in w'.rings[r].node.directMap)
  }

  lemma QueueShrinks(w: World, w': World, x: Scope, r: nat)
    requires Apart(w, w', x) && r < |w.rings| && QueueOk(w, r) && w.rings[r].cq != [] && SlotsOk(w)
    requires w'.rings[r].cq == w.rings[r].cq[1..]
    requires forall i | 0 < i < |w.rings[r].cq| :: StaysQueued(w, w', x, r, i)
    requires NobodyWaits(w, w', r)
    ensures QueueOk(w', r)
  {
    var cq, cq' := w.rings[r].cq, w'.rings[r].cq;
    forall i | 0 <= i < |cq'|
      ensures EntryOk(w', r, cq'[i]) && IsAt(w', cq'[i].data, InQueue(r)) && FdComesFirst(w', r, i) {
      assert cq'[i] == cq[i + 1];
      assert EntryOk(w, r, cq[i + 1]) && IsAt(w, cq[i + 1].data, InQueue(r)) && FdComesFirst(w, r, i + 1);
      assert StaysQueued(w, w', x, r, i + 1);
      if EntryOutside(w, cq[i + 1], x) {
        EntryFrame(w, w', x, r, cq[i + 1]);
        if w.mem[cq[i + 1].data].ConnMessage? {
          assert HolderOk(w, Key(0, w.mem[cq[i + 1].data].slot), w.past.hold[Key(0, w.mem[cq[i + 1].data].slot)]);
        }
        FdFirstShifts(w, w', x, r, i);
      }
    }
  }

  lemma FdFirstShifts(w: World, w': World, x: Scope, r: nat, j: nat)
    requires Apart(w, w', x) && r < |w.rings| && QueueOk(w, r) && w.rings[r].cq != []
      && w'.rings[r].cq == w.rings[r].cq[1..]
    requires j < |w'.rings[r].cq| && FdComesFirst(w, r, j + 1)
    requires w.rings[r].cq[j + 1].data in w.mem && EntryOutside(w, w.rings[r].cq[j + 1], x)
    requires NobodyWaits(w, w', r)
    requires EntryOk(w, r, w.rings[r].cq[j + 1])
    requires w.mem[w.rings[r].cq[j + 1].data].ConnMessage? ==>
      var key := Key(0, w.mem[w.rings[r].cq[j + 1].data].slot); HolderOk(w, key, w.past.hold[key])
    ensures FdComesFirst(w', r, j)
  {
    var cq, cq' := w.rings[r].cq, w'.rings[r].cq;
    var a := cq[j + 1].data;
    if w.mem[a].ConnMessage? && w.mem[a].slot !in w'.rings[r].node.directMap {
      assert SameMap(w, w', r, w.mem[a].slot);
      var recv := TransferAt(w, w.mem[a].slot).recv;
      assert IsReceiver(w.mem[recv], w.mem[a].slot);
      var i :| 0 <= i < j + 1 && cq[i].data == recv;
      assert i > 0 && cq'[i - 1].data == recv;
    }
  }

  // Taking the head off one queue, and otherwise adding only.
  lemma MessagesPopped(w: World, w': World, x: Scope, r: nat)
    requires |w'.rings| == |w.rings| && w.past.loc.Keys == w.mem.Keys && w'.past.loc.Keys == w'.mem.Keys
    requires r < |w.rings| && w.rings[r].cq != [] && w.rings[r].cq[0].data in x.addrs
    requires w'.rings[r].cq == w.rings[r].cq[1..] &&
      forall q | 0 <= q < |w.rings| && q != r :: w'.rings[q] == w.rings[q]
    requires SameNode(w.rings[r].node, w'.rings[r].node)
    requires forall a | a in w.mem && a !in x.addrs ::
      a in w'.mem && w'.mem[a] == w.mem[a] && w'.past.loc[a] == w.past.loc[a]
    requires forall id | id in w.ops && id !in x.ops :: id in w'.ops && w'.ops[id] == w.ops[id]
    requires forall t | t in w'.past.arrived && t !in w.past.arrived ::
      exists a | a in x.addrs && a in w.mem :: w.mem[a] == TaskMessage(t)
    requires w'.past.spawned == w.past.spawned
    ensures SameMessages(w, w', x)
  {
    forall q: nat, a | InQueueAt(w, q, a) && a !in x.addrs ensures InQueueAt(w', q, a) {
      var i :| 0 <= i < |w.rings[q].cq| && w.rings[q].cq[i].data == a;
      if q == r { assert w'.rings[q].cq[i - 1].data == a; } else { assert w'.rings[q].cq[i].data == a; }
    }
  }
}
