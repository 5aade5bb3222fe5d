/** A live socket always has an open slot; a slot is closed once at most; a task arrives once. */
module HandoffLives {
  import opened Common
  import opened Messages
  import opened Connection
  import opened UringRing
  import opened Handoff
  import opened HandoffInvariant
  import opened HandoffFrame
  import opened HandoffSteps
  import opened HandoffKernel
  import opened HandoffTransfers
  import opened HandoffHandle
  import opened HandoffRuns

  // -- Live sockets

  ghost predicate Keeper(h: Holder) { h.OwnedBy? || h.Sending? }

  // A step that closes no slot with a keeper and takes no slot from its keeper, except of a dead socket.
  ghost predicate SameLives(w: World, w': World) {
    && w'.past.home == w.past.home && w.past.dead <= w'.past.dead
    && (forall k | k in w.past.hold && Keeper(w.past.hold[k]) && w.Open(k) ::
          w'.Open(k) && w'.SockAt(k) == w.SockAt(k) && k in w'.past.hold
          && (Keeper(w'.past.hold[k]) || w.SockAt(k) in w'.past.dead))
  }

  lemma LivesSame(w: World, w': World)
    requires LivesOk(w) && SameLives(w, w')
    ensures LivesOk(w')
  {
    forall k | k in w'.past.home && k !in w'.past.dead ensures Live(w', k) { assert Live(w, k); }
  }

  lemma AcceptLives(w: World, s: int, k: Sock, c: ConnId)
    requires LivesOk(w) && CanAccept(w, s, k, c)
    ensures LivesOk(AcceptConn(w, s, k, c))
  {
    var w' := AcceptConn(w, s, k, c);
    forall j | j in w'.past.home && j !in w'.past.dead ensures Live(w', j) {
      if j != k { assert Live(w, j); }
    }
  }

  lemma ConnLives(w: World, alloc: Alloc, r: nat, id: OpId, c: ConnId)
    requires LivesOk(w) && ConnAtHead(w, r) && Alone(w, Key(0, w.mem[Data(w, r)].slot))
    requires w.past.hold[Key(r, w.rings[r].node.directMap[w.mem[Data(w, r)].slot])].Arriving?
    ensures LivesOk(ConnDone(w, r, alloc(w.mem.Keys - {Data(w, r)}), id, c))
  {
    var w' := ConnDone(w, r, alloc(w.mem.Keys - {Data(w, r)}), id, c);
    forall j | j in w'.past.home && j !in w'.past.dead ensures Live(w', j) {
      assert Live(w, j);
    }
  }

  lemma OwnedHome(w: World, c: ConnId)
    requires Inv(w) && c in w.conns && Responsible(w.conns[c]).slot >= 0
    ensures var k := Responsible(w.conns[c]); k in w.past.hold && w.past.hold[k] == OwnedBy(c) && AtHome(w, k)
  {
    assert ConnOk(w, c, w.conns[c]);
    HeldIsOpen(w, Responsible(w.conns[c]));
  }

  lemma HandleLives(w: World, alloc: Alloc, r: nat, id: OpId, c: ConnId)
    requires Inv(w) && LivesOk(w) && CanHandle(w, alloc, r, id, c)
    ensures LivesOk(HandleHead(w, alloc, r, id, c))
  {
    HeadIs(w, r);
    var m := w.mem[Data(w, r)];
    if m.TaskMessage? { HandleIsTask(w, alloc, r, id, c); LivesSame(w, TaskHandled(w, r)); }
    else if m.ConnMessage? {
      LookupIsCorrect(w, r);
      HandleIsConn(w, alloc, r, id, c);
      assert Alone(w, Key(0, m.slot));
      ConnLives(w, alloc, r, id, c);
    }
    else { TokenLives(w, alloc, r, id, c); }
  }

  lemma TokenLives(w: World, alloc: Alloc, r: nat, id: OpId, c: ConnId)
    requires AtHead(w, r) && w.mem[Data(w, r)].Token? && LivesOk(w) && CanHandle(w, alloc, r, id, c)
    ensures LivesOk(HandleHead(w, alloc, r, id, c))
  {
    var op := w.mem[Data(w, r)].op;
    if op.RingFdReceiver? { HandleIsFd(w, alloc, r, id, c); LivesSame(w, FdHandled(w, r)); }
    else if op in {RingFdSender, RingTask} { HandleIsSender(w, alloc, r, id, c); LivesSame(w, SenderHandled(w, r)); }
    else if op.MainRingCloseDirectSocket? {
      HandleIsRelease(w, alloc, r, id, c);
      LivesSame(w, ReleaseHandled(w, r, id));
    }
    else { HandleIsIo(w, alloc, r, id, c); LivesSame(w, IoHandled(w, r)); }
  }

  lemma ExecFdLives(w: World, id: OpId, there: int, id2: OpId)
    requires LivesOk(w) && FdReady(w, id, there, id2)
    ensures LivesOk(ExecFd(w, id, there, id2))
  {
    LivesSame(w, ExecFd(w, id, there, id2));
  }

  lemma ExecTaskLives(w: World, id: OpId)
    requires LivesOk(w) && CanExecTask(w, id)
    ensures LivesOk(ExecTask(w, id))
  {
    LivesSame(w, ExecTask(w, id));
  }

  lemma ExecCloseLives(w: World, id: OpId)
    requires LivesOk(w) && CanExecClose(w, id) && OpOk(w, id, w.ops[id])
    requires w.ops[id].key.slot < 0 ==> w.ops[id].key !in w.past.hold && !w.Open(w.ops[id].key)
    ensures LivesOk(ExecClose(w, id))
  {
    LivesSame(w, ExecClose(w, id));
  }

  lemma ExecLives(l: Label, w: World)
    requires Inv(w) && LivesOk(w) && Enabled(l, w) && (l.LExecFd? || l.LExecTask? || l.LExecPost? || l.LExecClose?)
    ensures LivesOk(Apply(l, w))
  {
    match l
    case LExecFd(id, there, id2) =>
      FdReadied(w, id, there, id2);
      ExecFdLives(w, id, there, id2);
    case LExecTask(id) => ExecTaskLives(w, id);
    case LExecPost(id) => LivesSame(w, ExecPost(w, id));
    case LExecClose(id) =>
      AboutOp(w, id);
      if w.ops[id].key.slot < 0 { NoSlotIsClosed(w, w.ops[id].key); }
      ExecCloseLives(w, id);
    case _ =>
  }

  lemma MoveLives(w: World, c: ConnId, to: ConnId)
    requires LivesOk(w) && CanMove(w, c, to)
    ensures LivesOk(MoveConn(w, c, to))
  {
    LivesSame(w, MoveConn(w, c, to));
  }

  lemma AssignLives(w: World, d: ConnId, c: ConnId)
    requires Inv(w) && LivesOk(w) && CanAssign(w, d, c)
    ensures LivesOk(AssignConn(w, d, c))
  {
    if Responsible(w.conns[d]).slot >= 0 { OwnedHome(w, d); }
    LivesSame(w, AssignConn(w, d, c));
  }

  lemma DestroyLives(w: World, c: ConnId, id: OpId)
    requires Inv(w) && LivesOk(w) && CanDestroy(w, c, id)
    ensures LivesOk(DestroyConn(w, c, id))
  {
    if Responsible(w.conns[c]).slot >= 0 { OwnedHome(w, c); }
    LivesSame(w, DestroyConn(w, c, id));
  }

  lemma ReleaseLives(w: World, c: ConnId)
    requires Inv(w) && LivesOk(w) && CanRelease(w, c)
    ensures LivesOk(ReleaseConn(w, c))
  {
    if Responsible(w.conns[c]).slot >= 0 { OwnedHome(w, c); }
    LivesSame(w, ReleaseConn(w, c));
  }

  lemma SendLives(l: Label, w: World)
    requires LivesOk(w) && Enabled(l, w) && (l.LSendConn? || l.LSendTask? || l.LCoSpawn? || l.LStartIo? || l.LEndIo?)
    ensures LivesOk(Apply(l, w))
  {
    LivesSame(w, Apply(l, w));
  }

  lemma LivesStep(l: Label, w: World, w': World)
    requires Inv(w) && LivesOk(w) && Step(l, w, w')
    ensures LivesOk(w')
  {
    match l
    case LAccept(s, k, c) => AcceptLives(w, s, k, c);
    case LMove(c, to) => MoveLives(w, c, to);
    case LAssign(d, c) => AssignLives(w, d, c);
    case LRelease(c) => ReleaseLives(w, c);
    case LDestroy(c, id) => DestroyLives(w, c, id);
    case LHandle(alloc, r, id, c) => HandleLives(w, alloc, r, id, c);
    case _ =>
      if l.LExecFd? || l.LExecTask? || l.LExecPost? || l.LExecClose? { ExecLives(l, w); } else { SendLives(l, w); }
  }

  // -- Closes

  // A step that issues no close, and opens no slot for a socket.
  ghost predicate SameCloses(w: World, w': World) {
    && w'.past.closes == w.past.closes && w.past.home.Keys <= w'.past.home.Keys && w.past.dead <= w'.past.dead
    && (forall k: Key | w'.Open(k) && k in w'.past.hold ::
          w.Open(k) && k in w.past.hold && w.SockAt(k) == w'.SockAt(k)
            && (w'.past.hold[k].Closing? <==> w.past.hold[k].Closing?))
  }

  lemma ClosesSame(w: World, w': World)
    requires ClosesOk(w) && SameCloses(w, w')
    ensures ClosesOk(w')
  {
    forall key ensures CloseOk(w', key) { assert CloseOk(w, key); }
    forall r, k ensures CountOk(w', r, k) { assert CountOk(w, r, k); }
  }

  // A step that issues the close of one slot.
  lemma ClosesOne(w: World, w': World, key: Key)
    requires ClosesOk(w) && key in w.past.hold && w.Open(key) && !w.past.hold[key].Closing? && Alone(w, key)
    requires w.SockAt(key) in w.past.home && (key.ring >= 1 ==> w.SockAt(key) in w'.past.dead)
    requires w'.past.closes == w.past.closes + multiset{(key.ring, w.SockAt(key))}
    requires w'.past.home == w.past.home && w.past.dead <= w'.past.dead
    requires key in w'.past.hold && w'.past.hold[key].Closing?
    requires forall k: Key | w'.Open(k) && k in w'.past.hold ::
      w.Open(k) && k in w.past.hold && w.SockAt(k) == w'.SockAt(k) && (k != key ==> w'.past.hold[k] == w.past.hold[k])
    ensures ClosesOk(w')
  {
    assert CloseOk(w, key);
    forall k ensures CloseOk(w', k) { assert CloseOk(w, k); }
    forall r, k ensures CountOk(w', r, k) { assert CountOk(w, r, k); }
  }

  // A step that opens one slot for a socket.
  lemma ClosesOpen(w: World, w': World, key: Key)
    requires ClosesOk(w) && w'.Open(key) && key in w'.past.hold && !w'.past.hold[key].Closing?
    requires w.past.closes[(key.ring, w'.SockAt(key))] == 0
    requires w'.past.closes == w.past.closes && w.past.home.Keys <= w'.past.home.Keys && w.past.dead <= w'.past.dead
    requires forall k: Key | w'.Open(k) && k in w'.past.hold && k != key ::
      w.Open(k) && k in w.past.hold && w.SockAt(k) == w'.SockAt(k)
        && (w'.past.hold[k].Closing? <==> w.past.hold[k].Closing?)
    ensures ClosesOk(w')
  {
    forall k ensures CloseOk(w', k) { assert CloseOk(w, k); }
    forall r, k ensures CountOk(w', r, k) { assert CountOk(w, r, k); }
  }

  lemma HandleCloses(w: World, alloc: Alloc, r: nat, id: OpId, c: ConnId)
    requires Inv(w) && ClosesOk(w) && CanHandle(w, alloc, r, id, c)
    ensures ClosesOk(HandleHead(w, alloc, r, id, c))
  {
    HeadIs(w, r);
    var m := w.mem[Data(w, r)];
    if m.TaskMessage? { HandleIsTask(w, alloc, r, id, c); ClosesSame(w, TaskHandled(w, r)); }
    else if m.ConnMessage? {
      LookupIsCorrect(w, r);
      HandleIsConn(w, alloc, r, id, c);
      ConnDoneCloses(w, alloc, r, id, c);
    }
    else if m.op.MainRingCloseDirectSocket? {
      HandleIsRelease(w, alloc, r, id, c);
      var key := Key(r, w.rings[r].cq[0].res);
      HeldIsOpen(w, key);
      assert Alone(w, key);
      ReleaseCloses(w, r, id);
    }
    else { TokenCloses(w, alloc, r, id, c); }
  }

  lemma ConnDoneCloses(w: World, alloc: Alloc, r: nat, id: OpId, c: ConnId)
    requires ClosesOk(w) && ConnAtHead(w, r)
    ensures ClosesOk(ConnDone(w, r, alloc(w.mem.Keys - {Data(w, r)}), id, c))
  {
    ClosesSame(w, ConnDone(w, r, alloc(w.mem.Keys - {Data(w, r)}), id, c));
  }

  lemma ReleaseCloses(w: World, r: nat, id: OpId)
    requires ClosesOk(w) && AtHead(w, r) && w.mem[Data(w, r)].Token? && w.mem[Data(w, r)].op.MainRingCloseDirectSocket?
    requires var key := Key(r, w.rings[r].cq[0].res); HolderOk(w, key, w.past.hold[key]) && Alone(w, key)
    ensures ClosesOk(ReleaseHandled(w, r, id))
  {
    ClosesOne(w, ReleaseHandled(w, r, id), Key(r, w.rings[r].cq[0].res));
  }

  lemma TokenCloses(w: World, alloc: Alloc, r: nat, id: OpId, c: ConnId)
    requires AtHead(w, r) && w.mem[Data(w, r)].Token? && !w.mem[Data(w, r)].op.MainRingCloseDirectSocket?
    requires ClosesOk(w) && CanHandle(w, alloc, r, id, c)
    ensures ClosesOk(HandleHead(w, alloc, r, id, c))
  {
    var op := w.mem[Data(w, r)].op;
    if op.RingFdReceiver? { HandleIsFd(w, alloc, r, id, c); ClosesSame(w, FdHandled(w, r)); }
    else if op in {RingFdSender, RingTask} { HandleIsSender(w, alloc, r, id, c); ClosesSame(w, SenderHandled(w, r)); }
    else { HandleIsIo(w, alloc, r, id, c); ClosesSame(w, IoHandled(w, r)); }
  }

  lemma ExecFdCloses(w: World, id: OpId, there: int, id2: OpId)
    requires ClosesOk(w) && FdReady(w, id, there, id2)
    ensures ClosesOk(ExecFd(w, id, there, id2))
  {
    assert CountOk(w, w.ops[id].target, w.SockAt(Key(0, w.ops[id].slot)));
    ClosesOpen(w, ExecFd(w, id, there, id2), Key(w.ops[id].target, there));
  }

  lemma ExecTaskCloses(w: World, id: OpId, s: int)
    requires ClosesOk(w) && TaskReady(w, id, s)
    ensures ClosesOk(ExecTask(w, id))
  {
    ClosesSame(w, ExecTask(w, id));
  }

  lemma ExecCloses(l: Label, w: World)
    requires Inv(w) && ClosesOk(w) && Enabled(l, w) && (l.LExecFd? || l.LExecTask? || l.LExecPost? || l.LExecClose?)
    ensures ClosesOk(Apply(l, w))
  {
    match l
    case LExecFd(id, there, id2) =>
      FdReadied(w, id, there, id2);
      ExecFdCloses(w, id, there, id2);
    case LExecTask(id) =>
      TaskReadied(w, id);
      ExecTaskCloses(w, id, w.mem[w.ops[id].helper].slot);
    case LExecPost(id) => ClosesSame(w, ExecPost(w, id));
    case LExecClose(id) => ClosesSame(w, ExecClose(w, id));
    case _ =>
  }

  lemma DestroyCloses(w: World, c: ConnId, id: OpId)
    requires Inv(w) && ClosesOk(w) && CanDestroy(w, c, id)
    ensures ClosesOk(DestroyConn(w, c, id))
  {
    var key := Responsible(w.conns[c]);
    if key.slot >= 0 {
      OwnedHome(w, c);
      assert Alone(w, key);
      ClosesOne(w, DestroyConn(w, c, id), key);
    } else {
      ClosesSame(w, DestroyConn(w, c, id));
    }
  }

  lemma AssignCloses(w: World, d: ConnId, c: ConnId)
    requires Inv(w) && ClosesOk(w) && CanAssign(w, d, c)
    ensures ClosesOk(AssignConn(w, d, c))
  {
    if Responsible(w.conns[c]).slot >= 0 { OwnedHome(w, c); }
    if Responsible(w.conns[d]).slot >= 0 { OwnedHome(w, d); }
    ClosesSame(w, AssignConn(w, d, c));
  }

  lemma ConnCloses(l: Label, w: World)
    requires Inv(w) && ClosesOk(w) && Enabled(l, w) && (l.LMove? || l.LRelease? || l.LSendConn?)
    ensures ClosesOk(Apply(l, w))
  {
    if Responsible(w.conns[l.c]).slot >= 0 { OwnedHome(w, l.c); }
    ClosesSame(w, Apply(l, w));
  }

  lemma AcceptCloses(w: World, s: int, k: Sock, c: ConnId)
    requires Inv(w) && ClosesOk(w) && CanAccept(w, s, k, c)
    ensures ClosesOk(AcceptConn(w, s, k, c))
  {
    assert CountOk(w, 0, k);
    ClosesOpen(w, AcceptConn(w, s, k, c), Key(0, s));
  }

  lemma SendCloses(l: Label, w: World)
    requires ClosesOk(w) && Enabled(l, w) && (l.LSendTask? || l.LCoSpawn? || l.LStartIo? || l.LEndIo?)
    ensures ClosesOk(Apply(l, w))
  {
    ClosesSame(w, Apply(l, w));
  }

  lemma ClosesStep(l: Label, w: World, w': World)
    requires Inv(w) && ClosesOk(w) && Step(l, w, w')
    ensures ClosesOk(w')
  {
    if l.LAccept? { AcceptCloses(w, l.s, l.k, l.c); }
    else if l.LDestroy? { DestroyCloses(w, l.c, l.id); }
    else if l.LHandle? { HandleCloses(w, l.alloc, l.r, l.id, l.c); }
    else if l.LExecFd? || l.LExecTask? || l.LExecPost? || l.LExecClose? { ExecCloses(l, w); }
    else if l.LAssign? { AssignCloses(w, l.d, l.c); }
    else if l.LMove? || l.LRelease? || l.LSendConn? { ConnCloses(l, w); }
    else { SendCloses(l, w); }
  }

  // -- Remote spawns

  // A step that leaves the peers' jobs and the messages not yet handled alone.
  ghost predicate SameSpawns(w: World, w': World) {
    && |w'.rings| == |w.rings|
    && (forall r, t | 0 <= r < |w.rings| :: Copies(w'.rings[r].node.peer, t) == Copies(w.rings[r].node.peer, t))
    && w'.past.arrived == w.past.arrived && w'.past.spawned == w.past.spawned
    && (forall t | t in w.past.spawned && t !in w.past.arrived && w.past.spawned[t].msg in w.mem
       && w.mem[w.past.spawned[t].msg] == TaskMessage(t) ::
          w.past.spawned[t].msg in w'.mem && w'.mem[w.past.spawned[t].msg] == TaskMessage(t))
  }

  lemma SpawnsSame(w: World, w': World)
    requires SpawnsOk(w) && SameSpawns(w, w')
    ensures SpawnsOk(w')
  {
    forall t ensures SpawnOk(w', t) { assert SpawnOk(w, t); }
  }

  lemma SendTaskSpawns(w: World, t: TaskId, target: nat, msg: Addr, token: Addr, id: OpId, id2: OpId)
    requires SpawnsOk(w) && CanSendTask(w, t, target, msg, token, id, id2) && t !in w.past.arrived
    ensures SpawnsOk(SendTask(w, t, target, msg, token, id, id2))
  {
    var w' := SendTask(w, t, target, msg, token, id, id2);
    forall u ensures SpawnOk(w', u) { assert SpawnOk(w, u); }
  }

  // One peer gets one more task, or one that is there changes its pending flag.
  lemma PeerChanges(w: World, r: nat, root: nat, p: bool, job: Job)
    requires r < |w.rings|
    ensures var peer := w.rings[r].node.peer;
      && (forall t {:trigger Copies(peer, t)} ::
         Copies(peer + [PeerTask(job, false)], t) == Copies(peer, t) + if job == Plain(t) then 1 else 0)
      && (root < |peer| ==> forall t {:trigger Copies(peer, t)} ::
         Copies(peer[root := peer[root].(pending := p)], t) == Copies(peer, t))
  {
    var peer := w.rings[r].node.peer;
    forall t ensures Copies(peer + [PeerTask(job, false)], t) == Copies(peer, t) + if job == Plain(t) then 1 else 0 {
      CopiesAppend(peer, PeerTask(job, false), t);
    }
    if root < |peer| {
      forall t ensures Copies(peer[root := peer[root].(pending := p)], t) == Copies(peer, t) {
        CopiesUpdate(peer, root, peer[root].(pending := p), t);
      }
    }
  }

  lemma TaskSpawns(w: World, r: nat)
    requires SpawnsOk(w) && AtHead(w, r) && w.mem[Data(w, r)].TaskMessage?
    requires var t := w.mem[Data(w, r)].task;
      t !in w.past.arrived && t in w.past.spawned && w.past.spawned[t].msg == Data(w, r)
    ensures SpawnsOk(TaskHandled(w, r))
  {
    var t, w' := w.mem[Data(w, r)].task, TaskHandled(w, r);
    PeerChanges(w, r, 0, false, Plain(t));
    forall u ensures SpawnOk(w', u) { assert SpawnOk(w, u); }
  }

  lemma ConnSpawns(w: World, alloc: Alloc, r: nat, id: OpId, c: ConnId)
    requires SpawnsOk(w) && ConnAtHead(w, r) && GoodAlloc(alloc)
    ensures SpawnsOk(ConnDone(w, r, alloc(w.mem.Keys - {Data(w, r)}), id, c))
  {
    var m := w.mem[Data(w, r)];
    PeerChanges(w, r, 0, false, WithConn(m.func, Rebound(Accepted(NO_SLOT), w.rings[r].node.directMap[m.slot])));
    SpawnsSame(w, ConnDone(w, r, alloc(w.mem.Keys - {Data(w, r)}), id, c));
  }

  lemma TokenSpawns(w: World, alloc: Alloc, r: nat, id: OpId, c: ConnId)
    requires AtHead(w, r) && w.mem[Data(w, r)].Token? && SpawnsOk(w) && CanHandle(w, alloc, r, id, c)
    ensures SpawnsOk(HandleHead(w, alloc, r, id, c))
  {
    var m := w.mem[Data(w, r)];
    if m.op.RingFdReceiver? { HandleIsFd(w, alloc, r, id, c); SpawnsSame(w, FdHandled(w, r)); }
    else if m.op in {RingFdSender, RingTask} { HandleIsSender(w, alloc, r, id, c); SpawnsSame(w, SenderHandled(w, r)); }
    else if m.op.MainRingCloseDirectSocket? {
      HandleIsRelease(w, alloc, r, id, c);
      SpawnsSame(w, ReleaseHandled(w, r, id));
    }
    else {
      HandleIsIo(w, alloc, r, id, c);
      PeerChanges(w, r, m.root, false, Local);
      SpawnsSame(w, IoHandled(w, r));
    }
  }

  lemma HandleSpawns(w: World, alloc: Alloc, r: nat, id: OpId, c: ConnId)
    requires Inv(w) && SpawnsOk(w) && GoodAlloc(alloc) && CanHandle(w, alloc, r, id, c)
    ensures SpawnsOk(HandleHead(w, alloc, r, id, c))
  {
    HeadIs(w, r);
    AboutCell(w, Data(w, r));
    var m := w.mem[Data(w, r)];
    if m.TaskMessage? { HandleIsTask(w, alloc, r, id, c); TaskSpawns(w, r); }
    else if m.ConnMessage? {
      LookupIsCorrect(w, r);
      HandleIsConn(w, alloc, r, id, c);
      ConnSpawns(w, alloc, r, id, c);
    }
    else { TokenSpawns(w, alloc, r, id, c); }
  }

  lemma PeerSpawns(l: Label, w: World)
    requires SpawnsOk(w) && Enabled(l, w) && (l.LCoSpawn? || l.LStartIo?)
    ensures SpawnsOk(Apply(l, w))
  {
    PeerChanges(w, l.r, if l.LStartIo? then l.root else 0, true, Local);
    SpawnsSame(w, Apply(l, w));
  }

  lemma OtherSpawns(l: Label, w: World)
    requires SpawnsOk(w) && Enabled(l, w) && !l.LHandle? && !l.LCoSpawn? && !l.LStartIo? && !l.LSendTask? && !l.LEndIo?
    ensures SpawnsOk(Apply(l, w))
  {
    SpawnsSame(w, Apply(l, w));
  }

  lemma SpawnsStep(l: Label, w: World, w': World)
    requires Inv(w) && SpawnsOk(w) && Step(l, w, w')
    ensures SpawnsOk(w')
  {
    if l.LSendTask? { SendTaskSpawns(w, l.t, l.target, l.msg, l.token, l.id, l.id2); }
    else if l.LHandle? { HandleSpawns(w, l.alloc, l.r, l.id, l.c); }
    else if l.LCoSpawn? || l.LStartIo? { PeerSpawns(l, w); }
    else if l.LEndIo? { AboutCell(w, l.a); SpawnsSame(w, w'); }
    else { OtherSpawns(l, w); }
  }

  // -- Together

  lemma FullStep(l: Label, w: World, w': World)
    requires Full(w) && Step(l, w, w')
    ensures Full(w')
  {
    InvStep(l, w, w');
    LivesStep(l, w, w');
    ClosesStep(l, w, w');
    SpawnsStep(l, w, w');
  }

  lemma FullInitially(w: World)
    requires Initial(w)
    ensures Full(w)
  {
    InvInitially(w);
    forall t ensures SpawnOk(w, t) {
      forall r | 0 <= r < |w.rings| ensures Copies(w.rings[r].node.peer, t) == 0 { NoCopies(w.rings[r].node.peer, t); }
    }
  }

  lemma {:induction false} RunIsFull(ls: seq<Label>, ws: seq<World>, i: nat)
    requires IsRun(ls, ws) && i <= |ls|
    ensures Full(ws[i])
  {
    if i == 0 {
      FullInitially(ws[0]);
    } else {
      RunIsFull(ls, ws, i - 1);
      assert StepOf(ls, ws, i - 1);
      FullStep(ls[i - 1], ws[i - 1], ws[i]);
    }
  }

  lemma ReachableIsFull(w: World)
    requires Reachable(w)
    ensures Full(w)
  {
    var ls, ws :| IsRun(ls, ws) && ws[|ls|] == w;
    RunIsFull(ls, ws, |ls|);
  }
}
