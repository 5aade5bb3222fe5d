/** What a step of the hand-off protocol leaves alone. */
module HandoffFrame {
  import opened Common
  import opened Messages
  import opened Connection
  import opened UringRing
  import opened Handoff
  import opened HandoffInvariant

  // What a step may have changed: addresses, operations, slots (with their holders and map
  // entries) and connections.
  datatype Scope = Scope(addrs: set<Addr>, ops: set<OpId>, keys: set<Key>, conns: set<ConnId>)

  ghost predicate SameSlots(w: World, w': World, x: Scope) {
    && |w'.rings| == |w.rings|
    && (forall k | k !in x.keys ::
       (k in w'.past.hold <==> k in w.past.hold) && (k in w.past.hold ==> w'.past.hold[k] == w.past.hold[k]))
    && (forall k: Key | k !in x.keys :: SameSlot(w, w', k))
    && (forall r, s | 0 <= r < |w.rings| && Key(0, s) !in x.keys :: SameMap(w, w', r, s))
  }

  ghost predicate SameSlot(w: World, w': World, k: Key) {
    && (w'.Open(k) <==> w.Open(k))
    && (w.Open(k) ==> w'.SockAt(k) == w.SockAt(k))
    && (w.Open(k) && w.SockAt(k) in w.past.home ==> w.SockAt(k) in w'.past.home)
    && (w.Open(k) && w.SockAt(k) in w.past.dead ==> w.SockAt(k) in w'.past.dead)
    && (AtHome(w, k) ==> AtHome(w', k))
  }

  ghost predicate SameMap(w: World, w': World, r: nat, s: int)
    requires r < |w.rings| == |w'.rings|
  {
    var m, m' := w.rings[r].node.directMap, w'.rings[r].node.directMap;
    (s in m' <==> s in m) && (s in m ==> m'[s] == m[s])
  }

  ghost predicate SameMessages(w: World, w': World, x: Scope) {
    && w.past.loc.Keys == w.mem.Keys && w'.past.loc.Keys == w'.mem.Keys
    && (forall a | a in w.mem && a !in x.addrs ::
       a in w'.mem && w'.mem[a] == w.mem[a] && w'.past.loc[a] == w.past.loc[a])
    && (forall id | id in w.ops && id !in x.ops :: id in w'.ops && w'.ops[id] == w.ops[id])
    && (forall r, a | InQueueAt(w, r, a) && a !in x.addrs :: InQueueAt(w', r, a))
    && (forall r | 0 <= r < |w.rings| == |w'.rings| :: SameNode(w.rings[r].node, w'.rings[r].node))
    && (forall t | t in w.past.spawned :: t in w'.past.spawned && w'.past.spawned[t] == w.past.spawned[t])
    && (forall t | t in w'.past.arrived && t !in w.past.arrived ::
       exists a | a in x.addrs && a in w.mem :: w.mem[a] == TaskMessage(t))
  }

  ghost predicate SameNode(n: Node, n': Node) {
    |n'.peer| >= |n.peer| && (n.submitted == [] ==> n'.submitted == [])
  }

  ghost predicate SameConns(w: World, w': World, x: Scope) {
    forall c | c in w.conns && c !in x.conns :: c in w'.conns && w'.conns[c] == w.conns[c]
  }

  ghost predicate Apart(w: World, w': World, x: Scope) {
    SameSlots(w, w', x) && SameMessages(w, w', x) && SameConns(w, w', x)
  }

  // The things a holder speaks of are out of the step's scope.
  ghost predicate HolderOutside(w: World, k: Key, h: Holder, x: Scope) {
    && k !in x.keys
    && match h
       case OwnedBy(c) => c !in x.conns
       case Sending(t) =>
         && t.helper !in x.addrs && (t.stage.TaskSent? || t.op !in x.ops)
         && (w.IsWorker(t.worker) && k.slot !in w.rings[t.worker].node.directMap ==> t.recv !in x.addrs)
         && (t.stage.FdSent? || t.stage.TaskSent? ==> Key(t.worker, t.stage.there) !in x.keys)
       case Arriving(s) => Key(0, s) !in x.keys
       case Releasing(a) => a !in x.addrs
       case Closing(id) => id !in x.ops
       case Leaked => true
  }

  lemma HolderFrame(w: World, w': World, x: Scope, k: Key, h: Holder)
    requires Apart(w, w', x) && HolderOk(w, k, h) && HolderOutside(w, k, h, x) && w.past.loc.Keys == w.mem.Keys
    ensures HolderOk(w', k, h)
  {
    assert SameSlot(w, w', k);
    match h
    case Sending(t) =>
      assert SameMap(w, w', t.worker, k.slot);
      if t.stage.FdSent? || t.stage.TaskSent? { assert SameSlot(w, w', Key(t.worker, t.stage.there)); }
    case Arriving(s) => assert SameSlot(w, w', Key(0, s));
    case _ =>
  }

  ghost predicate CellOutside(w: World, a: Addr, x: Scope)
    requires a in w.mem && a in w.past.loc
  {
    && a !in x.addrs
    && (w.past.loc[a].WithOp? ==> w.past.loc[a].op !in x.ops)
    && match w.mem[a]
       case ConnMessage(_, s) => Key(0, s) !in x.keys
       case Token(op, _, s, _) => op.RingFdReceiver? ==> Key(0, s) !in x.keys
       case TaskMessage(t) => forall b | b in x.addrs && b in w.mem :: w.mem[b] != TaskMessage(t)
       case _ => true
  }

  lemma CellFrame(w: World, w': World, x: Scope, a: Addr)
    requires Apart(w, w', x) && a in w.mem && a in w.past.loc && CellOk(w, a, w.mem[a], w.past.loc[a])
      && CellOutside(w, a, x)
    ensures a in w'.mem && a in w'.past.loc && CellOk(w', a, w'.mem[a], w'.past.loc[a])
  {
    match w.mem[a]
    case Token(op, _, s, _) => if op.RingFdReceiver? { assert SameMap(w, w', TransferAt(w, s).worker, s); }
    case _ =>
  }

  ghost predicate EntryOutside(w: World, e: Cqe, x: Scope)
    requires e.data in w.mem
  {
    && e.data !in x.addrs
    && match w.mem[e.data]
       case ConnMessage(_, s) => Key(0, s) !in x.keys
       case Token(op, _, s, _) =>
         && (op.RingFdReceiver? ==> Key(0, s) !in x.keys)
         && (op.MainRingCloseDirectSocket? ==> Key(0, e.res) !in x.keys)
       case _ => true
  }

  lemma EntryFrame(w: World, w': World, x: Scope, r: nat, e: Cqe)
    requires Apart(w, w', x) && r < |w.rings| && EntryOk(w, r, e) && EntryOutside(w, e, x)
    ensures EntryOk(w', r, e)
  {}

  ghost predicate OpOutside(w: World, id: OpId, x: Scope)
    requires id in w.ops
  {
    && id !in x.ops
    && match w.ops[id]
       case Link(_, s, recv, sender, helper) => Key(0, s) !in x.keys && recv !in x.addrs && sender !in x.addrs
         && helper !in x.addrs
       case LinkTask(_, helper) =>
         helper !in x.addrs && helper in w.mem && w.mem[helper].ConnMessage? && Key(0, w.mem[helper].slot) !in x.keys
       case Post(_, e) => e.data in w.mem && EntryOutside(w, e, x)
       case Close(k) => k !in x.keys
  }

  lemma OpFrame(w: World, w': World, x: Scope, id: OpId)
    requires Apart(w, w', x) && id in w.ops && OpOk(w, id, w.ops[id]) && OpOutside(w, id, x)
    ensures id in w'.ops && OpOk(w', id, w'.ops[id])
  {
    if w.ops[id].Post? { EntryFrame(w, w', x, w.ops[id].ring, w.ops[id].cqe); }
  }

  lemma ConnFrame(w: World, w': World, x: Scope, c: ConnId)
    requires Apart(w, w', x) && c in w.conns && ConnOk(w, c, w.conns[c]) && c !in x.conns
      && Responsible(w.conns[c]) !in x.keys
    ensures c in w'.conns && ConnOk(w', c, w'.conns[c])
  {}

  // A queue entry keeps its place after the descriptor entry it needs.
  lemma FdFirstFrame(w: World, w': World, x: Scope, r: nat, j: nat)
    requires Apart(w, w', x) && r < |w.rings| && j < |w.rings[r].cq| && FdComesFirst(w, r, j)
    requires j < |w'.rings[r].cq| && forall i | 0 <= i <= j :: w'.rings[r].cq[i] == w.rings[r].cq[i]
    requires w.rings[r].cq[j].data in w.mem && EntryOutside(w, w.rings[r].cq[j], x)
    ensures FdComesFirst(w', r, j)
  {
    var a := w.rings[r].cq[j].data;
    if w.mem[a].ConnMessage? { assert SameMap(w, w', r, w.mem[a].slot); }
  }

  ghost predicate QueueOutside(w: World, r: nat, x: Scope)
    requires r < |w.rings|
  {
    forall i | 0 <= i < |w.rings[r].cq| :: w.rings[r].cq[i].data in w.mem && EntryOutside(w, w.rings[r].cq[i], x)
  }

  lemma QueueFrame(w: World, w': World, x: Scope, r: nat)
    requires Apart(w, w', x) && r < |w.rings| && QueueOk(w, r) && QueueOutside(w, r, x)
    requires w'.rings[r].cq == w.rings[r].cq
    ensures QueueOk(w', r)
  {
    var cq := w.rings[r].cq;
    forall i | 0 <= i < |cq| ensures EntryOk(w', r, cq[i]) && IsAt(w', cq[i].data, InQueue(r)) {
      assert EntryOk(w, r, cq[i]) && IsAt(w, cq[i].data, InQueue(r));
      EntryFrame(w, w', x, r, cq[i]);
    }
    forall j | 0 <= j < |cq| ensures FdComesFirst(w', r, j) { FdFirstFrame(w, w', x, r, j); }
  }

  // -- The four parts of the invariant, from what a step did within its scope

  lemma SlotsKept(w: World, w': World, x: Scope)
    requires Inv(w) && Apart(w, w', x)
    requires forall k | k in w'.past.hold ::
      (k in w.past.hold && HolderOutside(w, k, w.past.hold[k], x)) || HolderOk(w', k, w'.past.hold[k])
    requires forall k | k in x.keys && w'.Open(k) :: k in w'.past.hold && Alone(w', k)
    ensures SlotsOk(w')
  {
    forall k | k in w'.past.hold ensures HolderOk(w', k, w'.past.hold[k]) {
      if !HolderOk(w', k, w'.past.hold[k]) {
        assert HolderOk(w, k, w.past.hold[k]);
        HolderFrame(w, w', x, k, w.past.hold[k]);
      }
    }
    forall r, s | 0 <= r < |w'.rings| && s in w'.rings[r].table ensures Key(r, s) in w'.past.hold {
      assert w'.Open(Key(r, s));
      if Key(r, s) !in x.keys { assert SameSlot(w, w', Key(r, s)); }
    }
    forall k | k in w'.past.hold ensures Alone(w', k) {
      forall l | l in w'.past.hold && k != l
        ensures k.ring == l.ring && w'.Open(k) && w'.Open(l) ==> w'.SockAt(k) != w'.SockAt(l)
        ensures w'.past.hold[k].Releasing? ==> w'.past.hold[l] != w'.past.hold[k]
      {
        assert HolderOk(w', k, w'.past.hold[k]) && HolderOk(w', l, w'.past.hold[l]);
        if k !in x.keys && l !in x.keys {
          assert SameSlot(w, w', k) && SameSlot(w, w', l);
          assert Alone(w, k);
        } else {
          assert Alone(w', if k in x.keys then k else l);
        }
      }
    }
  }

  lemma ConnsKept(w: World, w': World, x: Scope)
    requires Inv(w) && Apart(w, w', x)
    requires forall c | c in w'.conns ::
      (c in w.conns && c !in x.conns && Responsible(w.conns[c]) !in x.keys) || ConnOk(w', c, w'.conns[c])
    ensures ConnsOk(w')
  {
    forall c | c in w'.conns ensures ConnOk(w', c, w'.conns[c]) {
      if !ConnOk(w', c, w'.conns[c]) { ConnFrame(w, w', x, c); }
    }
  }

  lemma MapsKept(w: World, w': World, x: Scope)
    requires Inv(w) && Apart(w, w', x)
    requires forall r, s | 0 <= r < |w'.rings| && s in w'.rings[r].node.directMap ::
      Key(0, s) !in x.keys || MapEntryOk(w', r, s, w'.rings[r].node.directMap[s])
    ensures MapsOk(w')
  {
    forall r, s | 0 <= r < |w'.rings| && s in w'.rings[r].node.directMap
      ensures MapEntryOk(w', r, s, w'.rings[r].node.directMap[s])
    {
      if Key(0, s) !in x.keys {
        assert SameMap(w, w', r, s);
        assert MapEntryOk(w, r, s, w.rings[r].node.directMap[s]);
      }
    }
  }

  lemma MessagesKept(w: World, w': World, x: Scope)
    requires Inv(w) && Apart(w, w', x)
    requires forall a | a in w'.mem :: (a in w.mem && CellOutside(w, a, x)) || CellOk(w', a, w'.mem[a], w'.past.loc[a])
    requires forall id | id in w'.ops :: (id in w.ops && OpOutside(w, id, x)) || OpOk(w', id, w'.ops[id])
    requires forall r | 0 <= r < |w'.rings| ::
      (QueueOutside(w, r, x) && w'.rings[r].cq == w.rings[r].cq) || QueueOk(w', r)
    ensures MessagesOk(w')
  {
    forall a | a in w'.mem ensures CellOk(w', a, w'.mem[a], w'.past.loc[a]) {
      if !CellOk(w', a, w'.mem[a], w'.past.loc[a]) { CellFrame(w, w', x, a); }
    }
    forall id | id in w'.ops ensures OpOk(w', id, w'.ops[id]) {
      if !OpOk(w', id, w'.ops[id]) { OpFrame(w, w', x, id); }
    }
    forall r | 0 <= r < |w'.rings| ensures QueueOk(w', r) {
      if !QueueOk(w', r) { QueueFrame(w, w', x, r); }
    }
  }
}
