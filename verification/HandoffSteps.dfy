/** Every step of the hand-off protocol keeps the invariant. */
module HandoffSteps {
  import opened Common
  import opened Messages
  import opened Connection
  import opened UringRing
  import opened Handoff
  import opened HandoffInvariant
  import opened HandoffFrame

  // Nothing that speaks of messages is in the scope of a step that only touches slots owned by
  // connections.
  ghost predicate OnlyOwned(w: World, x: Scope) {
    && x.addrs == {} && x.ops == {}
    && forall k | k in x.keys :: k.slot >= 0 && (k in w.past.hold ==> w.past.hold[k].OwnedBy?)
  }

  lemma MessagesOutside(w: World, x: Scope)
    requires Inv(w) && OnlyOwned(w, x)
    ensures forall a | a in w.mem :: CellOutside(w, a, x)
    ensures forall id | id in w.ops :: OpOutside(w, id, x)
    ensures forall r | 0 <= r < |w.rings| :: QueueOutside(w, r, x)
  {
    forall a | a in w.mem ensures CellOutside(w, a, x) { assert CellOk(w, a, w.mem[a], w.past.loc[a]); }
    forall r, e | 0 <= r < |w.rings| && EntryOk(w, r, e) ensures EntryOutside(w, e, x) {}
    forall id | id in w.ops ensures OpOutside(w, id, x) { assert OpOk(w, id, w.ops[id]); }
    forall r | 0 <= r < |w.rings| ensures QueueOutside(w, r, x) {
      assert QueueOk(w, r);
      forall i | 0 <= i < |w.rings[r].cq|
        ensures w.rings[r].cq[i].data in w.mem && EntryOutside(w, w.rings[r].cq[i], x) {
        assert EntryOk(w, r, w.rings[r].cq[i]);
      }
    }
  }

  lemma HoldersOutside(w: World, x: Scope)
    requires Inv(w) && OnlyOwned(w, x)
    ensures forall k | k in w.past.hold && k !in x.keys && (w.past.hold[k].OwnedBy? ==> w.past.hold[k].c !in x.conns) ::
      HolderOutside(w, k, w.past.hold[k], x)
  {
    forall k | k in w.past.hold && k !in x.keys && (w.past.hold[k].OwnedBy? ==> w.past.hold[k].c !in x.conns)
      ensures HolderOutside(w, k, w.past.hold[k], x)
    {
      assert HolderOk(w, k, w.past.hold[k]);
    }
  }

  lemma MapsOutside(w: World, x: Scope)
    requires Inv(w) && OnlyOwned(w, x)
    ensures forall r, s | 0 <= r < |w.rings| && s in w.rings[r].node.directMap :: Key(0, s) !in x.keys
  {
    forall r, s | 0 <= r < |w.rings| && s in w.rings[r].node.directMap ensures Key(0, s) !in x.keys {
      assert MapEntryOk(w, r, s, w.rings[r].node.directMap[s]);
    }
  }

  // A step that touches only connections and the slots they own, and adds messages.
  lemma OwnedStep(w: World, w': World, x: Scope)
    requires Inv(w) && OnlyOwned(w, x) && Apart(w, w', x)
    requires w'.past.dead <= w'.past.home.Keys && w'.past.arrived <= w'.past.spawned.Keys
    requires forall a | a in w'.mem && a !in w.mem :: CellOk(w', a, w'.mem[a], w'.past.loc[a])
    requires forall id | id in w'.ops && id !in w.ops :: OpOk(w', id, w'.ops[id])
    requires forall r | 0 <= r < |w.rings| ::
      w'.rings[r].cq == w.rings[r].cq && w'.rings[r].node.directMap == w.rings[r].node.directMap
    requires forall k | k in x.keys :: k in w'.past.hold && HolderOk(w', k, w'.past.hold[k]) && Alone(w', k)
    requires forall c | c in w'.conns :: c in x.conns || c in w.conns
    requires forall c | c in x.conns && c in w'.conns :: ConnOk(w', c, w'.conns[c])
    requires forall k | k in w.past.hold && w.past.hold[k].OwnedBy? && w.past.hold[k].c in x.conns :: k in x.keys
    requires forall c | c in w.conns && c !in x.conns :: Responsible(w.conns[c]) !in x.keys
    ensures Inv(w')
  {
    MessagesOutside(w, x);
    HoldersOutside(w, x);
    MapsOutside(w, x);
    SlotsKept(w, w', x);
    ConnsKept(w, w', x);
    MapsKept(w, w', x);
    MessagesKept(w, w', x);
  }

  lemma HeldIsOpen(w: World, k: Key)
    requires Inv(w) && k in w.past.hold
    ensures w.Open(k) && k.slot >= 0 && HolderOk(w, k, w.past.hold[k])
  {
    assert HolderOk(w, k, w.past.hold[k]);
  }

  // Slots, messages and connections are compared without the invariant, which would only be in the way.
  ghost predicate Shaped(w: World) { |w.rings| > 0 && w.past.loc.Keys == w.mem.Keys }

  lemma SameQueues(w: World, w': World)
    requires |w'.rings| == |w.rings| && forall r | 0 <= r < |w.rings| :: w.rings[r].cq <= w'.rings[r].cq
    ensures forall r: nat, a | InQueueAt(w, r, a) :: InQueueAt(w', r, a)
  {
    forall r: nat, a | InQueueAt(w, r, a) ensures InQueueAt(w', r, a) {
      var i :| 0 <= i < |w.rings[r].cq| && w.rings[r].cq[i].data == a;
      assert w'.rings[r].cq[i].data == a;
    }
  }

  // A step that leaves tables, maps and homes as they are.
  lemma SlotsUntouched(w: World, w': World, x: Scope)
    requires |w'.rings| == |w.rings| && w'.past.home == w.past.home && w'.past.dead == w.past.dead
    requires forall r | 0 <= r < |w.rings| ::
      w'.rings[r].table == w.rings[r].table && w'.rings[r].node.directMap == w.rings[r].node.directMap
    requires forall k | k !in x.keys ::
      (k in w'.past.hold <==> k in w.past.hold) && (k in w.past.hold ==> w'.past.hold[k] == w.past.hold[k])
    ensures SameSlots(w, w', x)
  {
    forall k: Key | k !in x.keys ensures SameSlot(w, w', k) {}
  }

  // A step that leaves tables, maps and homes as they are, but ends the sockets at home in `lost`.
  lemma SlotsDropped(w: World, w': World, x: Scope, lost: set<Key>)
    requires |w'.rings| == |w.rings| && w'.past.home == w.past.home && w.past.dead <= w'.past.dead
    requires forall r | 0 <= r < |w.rings| ::
      w'.rings[r].table == w.rings[r].table && w'.rings[r].node.directMap == w.rings[r].node.directMap
    requires forall k | k !in x.keys ::
      (k in w'.past.hold <==> k in w.past.hold) && (k in w.past.hold ==> w'.past.hold[k] == w.past.hold[k])
    requires lost <= x.keys && forall j | j in w'.past.dead && j !in w.past.dead ::
      j in w.past.home && w.past.home[j] in lost
    ensures SameSlots(w, w', x)
  {
    forall k: Key | k !in x.keys ensures SameSlot(w, w', k) {}
  }

  // A step that takes away no message outside its scope, and no queue entry.
  lemma MessagesAdded(w: World, w': World, x: Scope)
    requires |w'.rings| == |w.rings| && w.past.loc.Keys == w.mem.Keys && w'.past.loc.Keys == w'.mem.Keys
    requires forall a | a in w.mem && a !in x.addrs ::
      a in w'.mem && w'.mem[a] == w.mem[a] && w'.past.loc[a] == w.past.loc[a]
    requires forall id | id in w.ops && id !in x.ops :: id in w'.ops && w'.ops[id] == w.ops[id]
    requires forall r | 0 <= r < |w.rings| ::
      w.rings[r].cq <= w'.rings[r].cq && SameNode(w.rings[r].node, w'.rings[r].node)
    requires w'.past.arrived == w.past.arrived
    requires forall t | t in w.past.spawned :: t in w'.past.spawned && w'.past.spawned[t] == w.past.spawned[t]
    ensures SameMessages(w, w', x)
  {
    SameQueues(w, w');
  }

  lemma AcceptApart(w: World, s: int, k: Sock, c: ConnId)
    requires Shaped(w) && CanAccept(w, s, k, c)
    ensures Apart(w, AcceptConn(w, s, k, c), Scope({}, {}, {Key(0, s)}, {c}))
  {
    var w', x := AcceptConn(w, s, k, c), Scope({}, {}, {Key(0, s)}, {c});
    MessagesAdded(w, w', x);
    forall l: Key | l !in x.keys ensures SameSlot(w, w', l) { AcceptSlot(w, s, k, c, l); }
  }

  lemma AcceptSlot(w: World, s: int, k: Sock, c: ConnId, l: Key)
    requires CanAccept(w, s, k, c) && l != Key(0, s)
    ensures SameSlot(w, AcceptConn(w, s, k, c), l)
  {
    var w' := AcceptConn(w, s, k, c);
    assert w'.Open(l) <==> w.Open(l);
  }

  lemma AcceptKeeps(w: World, s: int, k: Sock, c: ConnId)
    requires Inv(w) && CanAccept(w, s, k, c)
    ensures Inv(AcceptConn(w, s, k, c))
  {
    var w', key := AcceptConn(w, s, k, c), Key(0, s);
    forall l | l in w.past.hold ensures w.Open(l) { HeldIsOpen(w, l); }
    AcceptApart(w, s, k, c);
    AcceptAlone(w, s, k, c);
    forall d | d in w.conns ensures Responsible(w.conns[d]) != key { assert ConnOk(w, d, w.conns[d]); }
    forall l | l in w.past.hold && w.past.hold[l].OwnedBy? ensures w.past.hold[l].c != c {
      assert HolderOk(w, l, w.past.hold[l]);
    }
    assert HolderOk(w', key, w'.past.hold[key]);
    assert ConnOk(w', c, w'.conns[c]);
    OwnedStep(w, w', Scope({}, {}, {key}, {c}));
  }

  lemma AcceptAlone(w: World, s: int, k: Sock, c: ConnId)
    requires Inv(w) && CanAccept(w, s, k, c)
    ensures Alone(AcceptConn(w, s, k, c), Key(0, s))
  {
    var w', key := AcceptConn(w, s, k, c), Key(0, s);
    forall l | l in w'.past.hold && l != key && l.ring == 0 && w'.Open(l) ensures w'.SockAt(l) != k {
      HeldIsOpen(w, l);
      assert HolderOk(w, l, w.past.hold[l]);
    }
  }

  // The slot a connection is responsible for, if it has one.
  function KeysOf(w: World, c: ConnId): set<Key>
    requires c in w.conns
  {
    if Responsible(w.conns[c]).slot >= 0 then {Responsible(w.conns[c])} else {}
  }

  lemma OwnersApart(w: World, c: ConnId, d: ConnId)
    requires Inv(w) && c in w.conns && d in w.conns && c != d
    ensures Responsible(w.conns[d]) !in KeysOf(w, c)
  {
    assert ConnOk(w, c, w.conns[c]) && ConnOk(w, d, w.conns[d]);
  }

  lemma OwnedSlots(w: World, c: ConnId)
    requires Inv(w) && c in w.conns
    ensures forall k | k in KeysOf(w, c) ::
      k in w.past.hold && w.past.hold[k] == OwnedBy(c) && HolderOk(w, k, OwnedBy(c)) && Alone(w, k)
    ensures forall k | k in w.past.hold && w.past.hold[k] == OwnedBy(c) :: k in KeysOf(w, c)
  {
    assert ConnOk(w, c, w.conns[c]);
    forall k | k in w.past.hold && w.past.hold[k] == OwnedBy(c) ensures k in KeysOf(w, c) {
      assert HolderOk(w, k, OwnedBy(c));
    }
  }

  lemma MoveApart(w: World, c: ConnId, to: ConnId)
    requires Shaped(w) && CanMove(w, c, to)
    ensures Apart(w, MoveConn(w, c, to), Scope({}, {}, KeysOf(w, c), {c, to}))
  {
    var w', x := MoveConn(w, c, to), Scope({}, {}, KeysOf(w, c), {c, to});
    assert SameConns(w, w', x);
    assert SameMessages(w, w', x);
    assert SameSlots(w, w', x);
  }

  lemma MoveNew(w: World, c: ConnId, to: ConnId)
    requires CanMove(w, c, to) && ConnOk(w, c, w.conns[c])
    requires forall k | k in KeysOf(w, c) :: HolderOk(w, k, OwnedBy(c)) && Alone(w, k) && k in w.past.hold
    ensures var w' := MoveConn(w, c, to);
      && ConnOk(w', c, w'.conns[c]) && ConnOk(w', to, w'.conns[to])
      && forall k | k in KeysOf(w, c) :: k in w'.past.hold && HolderOk(w', k, w'.past.hold[k]) && Alone(w', k)
  {}

  lemma MoveKeeps(w: World, c: ConnId, to: ConnId)
    requires Inv(w) && CanMove(w, c, to)
    ensures Inv(MoveConn(w, c, to))
  {
    OneOwner(w, c);
    forall l | l in w.past.hold && w.past.hold[l].OwnedBy? ensures w.past.hold[l].c != to {
      assert HolderOk(w, l, w.past.hold[l]);
    }
    MoveApart(w, c, to);
    MoveNew(w, c, to);
    OwnedStep(w, MoveConn(w, c, to), Scope({}, {}, KeysOf(w, c), {c, to}));
  }

  lemma AssignApart(w: World, d: ConnId, c: ConnId)
    requires Shaped(w) && CanAssign(w, d, c) && forall k | k in KeysOf(w, d) :: AtHome(w, k)
    ensures Apart(w, AssignConn(w, d, c), Scope({}, {}, KeysOf(w, c) + KeysOf(w, d), {c, d}))
  {
    var w', x := AssignConn(w, d, c), Scope({}, {}, KeysOf(w, c) + KeysOf(w, d), {c, d});
    MessagesAdded(w, w', x);
    SlotsDropped(w, w', x, KeysOf(w, d));
  }

  lemma AssignKeeps(w: World, d: ConnId, c: ConnId)
    requires Inv(w) && CanAssign(w, d, c)
    ensures Inv(AssignConn(w, d, c))
  {
    var w', x := AssignConn(w, d, c), Scope({}, {}, KeysOf(w, c) + KeysOf(w, d), {c, d});
    TwoOwners(w, d, c);
    AssignConns(w, d, c);
    AssignApart(w, d, c);
    forall k | k in x.keys ensures k in w'.past.hold && HolderOk(w', k, w'.past.hold[k]) && Alone(w', k) {
      AssignHolder(w, d, c, k);
    }
    OwnedStep(w, w', x);
  }

  lemma AssignConns(w: World, d: ConnId, c: ConnId)
    requires CanAssign(w, d, c) && ConnOk(w, c, w.conns[c]) && ConnOk(w, d, w.conns[d])
    ensures var w' := AssignConn(w, d, c); ConnOk(w', c, w'.conns[c]) && ConnOk(w', d, w'.conns[d])
  {}

  lemma TwoOwners(w: World, d: ConnId, c: ConnId)
    requires Inv(w) && c in w.conns && d in w.conns && c != d
    ensures var x := Scope({}, {}, KeysOf(w, c) + KeysOf(w, d), {c, d});
      && ConnOk(w, c, w.conns[c]) && ConnOk(w, d, w.conns[d])
      && OnlyOwned(w, x)
      && (forall k | k in KeysOf(w, d) :: AtHome(w, k))
      && (forall e | e in w.conns && e !in x.conns :: Responsible(w.conns[e]) !in x.keys)
      && (forall k | k in w.past.hold && w.past.hold[k].OwnedBy? && w.past.hold[k].c in x.conns :: k in x.keys)
  {
    OwnedSlots(w, c);
    OwnedSlots(w, d);
    forall e | e in w.conns && e != c && e != d ensures Responsible(w.conns[e]) !in KeysOf(w, c) + KeysOf(w, d) {
      OwnersApart(w, c, e);
      OwnersApart(w, d, e);
    }
  }

  lemma AssignHolder(w: World, d: ConnId, c: ConnId, k: Key)
    requires Inv(w) && CanAssign(w, d, c) && k in KeysOf(w, c) + KeysOf(w, d)
    ensures var w' := AssignConn(w, d, c); k in w'.past.hold && HolderOk(w', k, w'.past.hold[k]) && Alone(w', k)
  {
    OwnedSlots(w, c);
    OwnedSlots(w, d);
    OwnersApart(w, c, d);
  }

  // What is known of one connection and the slot it owns.
  lemma OneOwner(w: World, c: ConnId)
    requires Inv(w) && c in w.conns
    ensures var x := Scope({}, {}, KeysOf(w, c), {c});
      && ConnOk(w, c, w.conns[c]) && OnlyOwned(w, x)
      && (forall k | k in x.keys ::
         k in w.past.hold && w.past.hold[k] == OwnedBy(c) && HolderOk(w, k, OwnedBy(c)) && Alone(w, k))
      && (forall e | e in w.conns && e !in x.conns :: Responsible(w.conns[e]) !in x.keys)
      && (forall k | k in w.past.hold && w.past.hold[k].OwnedBy? && w.past.hold[k].c in x.conns :: k in x.keys)
  {
    OwnedSlots(w, c);
    forall e | e in w.conns && e != c ensures Responsible(w.conns[e]) !in KeysOf(w, c) { OwnersApart(w, c, e); }
  }

  lemma ReleaseApart(w: World, c: ConnId)
    requires Shaped(w) && CanRelease(w, c) && forall k | k in KeysOf(w, c) :: AtHome(w, k)
    ensures Apart(w, ReleaseConn(w, c), Scope({}, {}, KeysOf(w, c), {c}))
  {
    var w', x := ReleaseConn(w, c), Scope({}, {}, KeysOf(w, c), {c});
    MessagesAdded(w, w', x);
    SlotsDropped(w, w', x, KeysOf(w, c));
  }

  lemma ReleaseNew(w: World, c: ConnId)
    requires CanRelease(w, c) && ConnOk(w, c, w.conns[c])
    requires forall k | k in KeysOf(w, c) :: HolderOk(w, k, OwnedBy(c)) && Alone(w, k) && k in w.past.hold
    ensures var w' := ReleaseConn(w, c);
      && ConnOk(w', c, w'.conns[c])
      && (forall k | k in KeysOf(w, c) :: k in w'.past.hold && HolderOk(w', k, w'.past.hold[k]) && Alone(w', k))
      && (w.past.dead <= w.past.home.Keys ==> w'.past.dead <= w'.past.home.Keys)
  {}

  lemma ReleaseKeeps(w: World, c: ConnId)
    requires Inv(w) && CanRelease(w, c)
    ensures Inv(ReleaseConn(w, c))
  {
    OneOwner(w, c);
    ReleaseApart(w, c);
    ReleaseNew(w, c);
    OwnedStep(w, ReleaseConn(w, c), Scope({}, {}, KeysOf(w, c), {c}));
  }

  lemma DestroySlots(w: World, c: ConnId, id: OpId)
    requires CanDestroy(w, c, id) && forall k | k in KeysOf(w, c) :: AtHome(w, k)
    ensures SameSlots(w, DestroyConn(w, c, id), Scope({}, {}, KeysOf(w, c), {c}))
  {
    var w', x := DestroyConn(w, c, id), Scope({}, {}, KeysOf(w, c), {c});
    SlotsDropped(w, w', x, KeysOf(w, c));
  }

  lemma DestroyApart(w: World, c: ConnId, id: OpId)
    requires Shaped(w) && CanDestroy(w, c, id) && forall k | k in KeysOf(w, c) :: AtHome(w, k)
    ensures Apart(w, DestroyConn(w, c, id), Scope({}, {}, KeysOf(w, c), {c}))
  {
    DestroySlots(w, c, id);
    MessagesAdded(w, DestroyConn(w, c, id), Scope({}, {}, KeysOf(w, c), {c}));
  }

  lemma DestroyNew(w: World, c: ConnId, id: OpId)
    requires CanDestroy(w, c, id) && ConnOk(w, c, w.conns[c])
    requires forall k | k in KeysOf(w, c) :: HolderOk(w, k, OwnedBy(c)) && Alone(w, k) && k in w.past.hold
    ensures var w' := DestroyConn(w, c, id);
      && (forall k | k in KeysOf(w, c) :: k in w'.past.hold && HolderOk(w', k, w'.past.hold[k]) && Alone(w', k))
      && (id in w'.ops ==> OpOk(w', id, w'.ops[id]))
      && (w.past.dead <= w.past.home.Keys ==> w'.past.dead <= w'.past.home.Keys)
  {}

  lemma DestroyKeeps(w: World, c: ConnId, id: OpId)
    requires Inv(w) && CanDestroy(w, c, id)
    ensures Inv(DestroyConn(w, c, id))
  {
    OneOwner(w, c);
    DestroyApart(w, c, id);
    DestroyNew(w, c, id);
    OwnedStep(w, DestroyConn(w, c, id), Scope({}, {}, KeysOf(w, c), {c}));
  }

  lemma SendConnApart(w: World, c: ConnId, target: nat, func: FuncId, n: Names)
    requires Shaped(w) && CanSendConn(w, c, target, n)
    ensures Apart(w, SendConn(w, c, target, func, n), Scope({}, {}, KeysOf(w, c), {c}))
  {
    var w', x := SendConn(w, c, target, func, n), Scope({}, {}, KeysOf(w, c), {c});
    SlotsUntouched(w, w', x);
    assert w'.past.loc.Keys == w'.mem.Keys;
    MessagesAdded(w, w', x);
  }

  lemma SendConnNew(w: World, c: ConnId, target: nat, func: FuncId, n: Names)
    requires CanSendConn(w, c, target, n) && ConnOk(w, c, w.conns[c])
    requires HolderOk(w, Key(0, w.conns[c].conn.socket), OwnedBy(c)) && Alone(w, Key(0, w.conns[c].conn.socket))
    requires w.conns[c].conn.socket !in w.rings[target].node.directMap
    ensures var w', key := SendConn(w, c, target, func, n), Key(0, w.conns[c].conn.socket);
      && key in w'.past.hold && HolderOk(w', key, w'.past.hold[key]) && Alone(w', key)
      && ConnOk(w', c, w'.conns[c])
      && CellOk(w', n.helper, w'.mem[n.helper], w'.past.loc[n.helper])
      && CellOk(w', n.recv, w'.mem[n.recv], w'.past.loc[n.recv])
      && CellOk(w', n.sender, w'.mem[n.sender], w'.past.loc[n.sender])
      && OpOk(w', n.op, w'.ops[n.op])
  {
    var w', key := SendConn(w, c, target, func, n), Key(0, w.conns[c].conn.socket);
    assert w'.past.hold[key] == Sending(Transfer(target, n.helper, n.recv, n.op, Linked));
    assert AtHome(w', key);
    assert w'.ops[n.op] == Link(target, key.slot, n.recv, n.sender, n.helper);
    assert w'.mem[n.helper] == ConnMessage(func, key.slot);
    assert HolderOk(w', key, w'.past.hold[key]);
  }

  lemma SendConnKeeps(w: World, c: ConnId, target: nat, func: FuncId, n: Names)
    requires Inv(w) && CanSendConn(w, c, target, n)
    ensures Inv(SendConn(w, c, target, func, n))
  {
    var w', x, key := SendConn(w, c, target, func, n), Scope({}, {}, KeysOf(w, c), {c}), Key(0, w.conns[c].conn.socket);
    OneOwner(w, c);
    assert key in KeysOf(w, c);
    MapsOutside(w, x);
    SendConnApart(w, c, target, func, n);
    SendConnNew(w, c, target, func, n);
    OwnedStep(w, w', x);
  }

  lemma SendTaskApart(w: World, t: TaskId, target: nat, msg: Addr, token: Addr, id: OpId, id2: OpId)
    requires Shaped(w) && CanSendTask(w, t, target, msg, token, id, id2)
    ensures Apart(w, SendTask(w, t, target, msg, token, id, id2), Scope({}, {}, {}, {}))
  {
    var w', x := SendTask(w, t, target, msg, token, id, id2), Scope({}, {}, {}, {});
    SlotsUntouched(w, w', x);
    assert w'.past.loc.Keys == w'.mem.Keys;
    MessagesAdded(w, w', x);
  }

  lemma SendTaskNew(w: World, t: TaskId, target: nat, msg: Addr, token: Addr, id: OpId, id2: OpId)
    requires |w.rings| > 0 && CanSendTask(w, t, target, msg, token, id, id2) && t !in w.past.arrived
    ensures var w' := SendTask(w, t, target, msg, token, id, id2);
      && OpOk(w', id, w'.ops[id]) && OpOk(w', id2, w'.ops[id2])
      && CellOk(w', msg, w'.mem[msg], w'.past.loc[msg]) && CellOk(w', token, w'.mem[token], w'.past.loc[token])
  {
    assert HasTaskFlag(F_TASK) && !HasTaskFlag(0);
  }

  lemma SendTaskKeeps(w: World, t: TaskId, target: nat, msg: Addr, token: Addr, id: OpId, id2: OpId)
    requires Inv(w) && CanSendTask(w, t, target, msg, token, id, id2)
    ensures Inv(SendTask(w, t, target, msg, token, id, id2))
  {
    SendTaskApart(w, t, target, msg, token, id, id2);
    SendTaskNew(w, t, target, msg, token, id, id2);
    OwnedStep(w, SendTask(w, t, target, msg, token, id, id2), Scope({}, {}, {}, {}));
  }

  lemma StartIoApart(w: World, r: nat, op: Op, root: nat, a: Addr, id: OpId, res: int, flags: nat)
    requires Shaped(w) && CanStartIo(w, r, op, root, a, id, flags)
    ensures Apart(w, StartIo(w, r, op, root, a, id, res, flags), Scope({}, {}, {}, {}))
  {
    var w', x := StartIo(w, r, op, root, a, id, res, flags), Scope({}, {}, {}, {});
    SlotsUntouched(w, w', x);
    assert w'.past.loc.Keys == w'.mem.Keys;
    MessagesAdded(w, w', x);
  }

  lemma StartIoNew(w: World, r: nat, op: Op, root: nat, a: Addr, id: OpId, res: int, flags: nat)
    requires CanStartIo(w, r, op, root, a, id, flags)
    ensures var w' := StartIo(w, r, op, root, a, id, res, flags);
      OpOk(w', id, w'.ops[id]) && CellOk(w', a, w'.mem[a], w'.past.loc[a])
  {}

  lemma StartIoKeeps(w: World, r: nat, op: Op, root: nat, a: Addr, id: OpId, res: int, flags: nat)
    requires Inv(w) && CanStartIo(w, r, op, root, a, id, flags)
    ensures Inv(StartIo(w, r, op, root, a, id, res, flags))
  {
    StartIoApart(w, r, op, root, a, id, res, flags);
    StartIoNew(w, r, op, root, a, id, res, flags);
    OwnedStep(w, StartIo(w, r, op, root, a, id, res, flags), Scope({}, {}, {}, {}));
  }

  lemma CoSpawnKeeps(w: World, r: nat)
    requires Inv(w) && CanCoSpawn(w, r)
    ensures Inv(CoSpawn(w, r))
  {
    var w', x := CoSpawn(w, r), Scope({}, {}, {}, {});
    SlotsUntouched(w, w', x);
    MessagesAdded(w, w', x);
    OwnedStep(w, w', x);
  }
}
