/** What becomes of messages and tokens over whole runs. */
module HandoffTokens {
  import opened Common
  import opened Messages
  import opened Connection
  import opened UringRing
  import opened Handoff
  import opened HandoffInvariant
  import opened HandoffSteps
  import opened HandoffKernel
  import opened HandoffTransfers
  import opened HandoffHandle
  import opened HandoffRuns
  import opened HandoffLives

  // Handling an entry that points at `a`.
  ghost predicate Handles(l: Label, w: World, a: Addr) {
    l.LHandle? && l.r < |w.rings| && w.rings[l.r].cq != [] && w.rings[l.r].cq[0].data == a
  }

  lemma HandleKeepsOthers(w: World, alloc: Alloc, r: nat, id: OpId, c: ConnId, a: Addr)
    requires Inv(w) && GoodAlloc(alloc) && CanHandle(w, alloc, r, id, c)
    requires a in w.mem && w.rings[r].cq[0].data != a
    ensures var w' := HandleHead(w, alloc, r, id, c); a in w'.mem && w'.mem[a] == w.mem[a]
  {
    HeadIs(w, r);
    var e, n := w.rings[r].cq[0], w.rings[r].node;
    var m := w.mem[e.data];
    if m.ConnMessage? {
      LookupIsCorrect(w, r);
      HandOffIsATask(alloc, w.mem, n, e);
    } else if m.Token? {
      if Awaited(m.op) { AwaitedCompletes(alloc, w.mem, n, e); } else { OtherTokensComplete(alloc, w.mem, n, e); }
    } else {
      MessagesAreTasks(alloc, w.mem, n, e);
    }
  }

  // Memory that is not an awaiter's at its end, nor pointed at by what is handled, is left alone.
  lemma MemoryKept(l: Label, w: World, w': World, a: Addr)
    requires Inv(w) && Step(l, w, w') && a in w.mem && l != LEndIo(a) && !Handles(l, w, a)
    ensures a in w'.mem && w'.mem[a] == w.mem[a]
  {
    if l.LHandle? { HandleKeepsOthers(w, l.alloc, l.r, l.id, l.c, a); }
  }

  predicate IsAwaiter(c: Cell) { c.Token? && Awaited(c.op) }

  // The task of a root is awake.
  predicate AwakeAt(n: Node, root: nat) { root < |n.peer| && !n.peer[root].pending }

  /** Handling the completion of an operation that a root awaits leaves its token where it is, with the
      result and the flags, and the root awake; no other token, message or task loop changes. */
  lemma ResultIsDelivered(w: World, alloc: Alloc, r: nat, id: OpId, c: ConnId)
    requires Reachable(w) && GoodAlloc(alloc) && CanHandle(w, alloc, r, id, c)
    requires var a := w.rings[r].cq[0].data; a in w.mem && IsAwaiter(w.mem[a])
    ensures var e, w' := w.rings[r].cq[0], HandleHead(w, alloc, r, id, c);
      && var t := w.mem[e.data];
      && w'.mem == w.mem[e.data := Token(t.op, t.root, e.res, e.flags)]
      && AwakeAt(w'.rings[r].node, t.root) && |w'.rings[r].node.peer| == |w.rings[r].node.peer|
      && (forall q | 0 <= q < |w.rings[r].node.peer| :: w'.rings[r].node.peer[q].job == w.rings[r].node.peer[q].job)
      && (forall q | 0 <= q < |w.rings[r].node.peer| && q != t.root ::
            w'.rings[r].node.peer[q] == w.rings[r].node.peer[q])
      && (forall q | 0 <= q < |w.rings| && q != r :: w'.rings[q] == w.rings[q])
  {
    ReachableIsFull(w);
    HeadIs(w, r);
    AwaitedCompletes(alloc, w.mem, w.rings[r].node, w.rings[r].cq[0]);
  }

  /** Starting one leaves its root asleep, and a token of its own that has not been answered. */
  lemma StartedRootSleeps(l: Label, w: World, w': World)
    requires Step(l, w, w') && l.LStartIo?
    ensures l.a !in w.mem && w'.mem == w.mem[l.a := Token(l.op, l.root, -38, 0)]
    ensures l.root < |w'.rings[l.r].node.peer| == |w.rings[l.r].node.peer| && w'.rings[l.r].node.peer[l.root].pending
    ensures w'.ops[l.id] == Post(l.r, Cqe(l.res, l.flags, l.a))
  {}

  /** And its end takes that token away, and nothing else. */
  lemma EndedIsGone(l: Label, w: World, w': World)
    requires Step(l, w, w') && l.LEndIo?
    ensures w'.mem == w.mem - {l.a} && w'.rings == w.rings && w'.ops == w.ops
  {}

  // A list of tasks has grown, by tasks that are ready.
  ghost predicate Grown(before: seq<PeerTask>, after: seq<PeerTask>) {
    && |before| <= |after|
    && (forall i | 0 <= i < |before| :: after[i].job == before[i].job)
    && (forall i | |before| <= i < |after| :: !after[i].pending)
  }

  lemma HandlingGrows(w: World, alloc: Alloc, r: nat, id: OpId, c: ConnId)
    requires Inv(w) && GoodAlloc(alloc) && CanHandle(w, alloc, r, id, c)
    ensures Grown(w.rings[r].node.peer, HandleHead(w, alloc, r, id, c).rings[r].node.peer)
  {
    HeadIs(w, r);
    var e, n := w.rings[r].cq[0], w.rings[r].node;
    var m := w.mem[e.data];
    if m.ConnMessage? { HandOffIsATask(alloc, w.mem, n, e); }
    else if m.Token? {
      if Awaited(m.op) { AwaitedCompletes(alloc, w.mem, n, e); } else { OtherTokensComplete(alloc, w.mem, n, e); }
    }
    else { MessagesAreTasks(alloc, w.mem, n, e); }
  }

  /** No step takes a task out of a task loop or puts another in its place, and every new one is ready. */
  lemma TaskLoopsGrow(ls: seq<Label>, ws: seq<World>, i: nat, r: nat)
    requires IsRun(ls, ws) && i < |ls| && r < |ws[i].rings|
    ensures r < |ws[i + 1].rings| && Grown(ws[i].rings[r].node.peer, ws[i + 1].rings[r].node.peer)
    ensures ls[i] == LCoSpawn(r) ==>
      ws[i + 1].rings[r].node.peer == ws[i].rings[r].node.peer + [PeerTask(Local, false)]
  {
    RunIsFull(ls, ws, i);
    assert StepOf(ls, ws, i);
    var l, w := ls[i], ws[i];
    if l.LHandle? { HandlingGrows(w, l.alloc, l.r, l.id, l.c); }
  }

  /** The token of an operation that a root awaits leaves memory only with the awaiter itself; until
      then it belongs to the same operation of the same root. */
  lemma {:induction false} AwaitersStay(ls: seq<Label>, ws: seq<World>, i: nat, j: nat, a: Addr)
    requires IsRun(ls, ws) && i <= j <= |ls| && a in ws[i].mem && IsAwaiter(ws[i].mem[a])
    requires forall k | i <= k < j :: ls[k] != LEndIo(a)
    ensures a in ws[j].mem && IsAwaiter(ws[j].mem[a])
    ensures ws[j].mem[a].op == ws[i].mem[a].op && ws[j].mem[a].root == ws[i].mem[a].root
    decreases j
  {
    if i < j {
      AwaitersStay(ls, ws, i, j - 1, a);
      RunIsFull(ls, ws, j - 1);
      assert StepOf(ls, ws, j - 1);
      var l, w := ls[j - 1], ws[j - 1];
      if Handles(l, w, a) {
        HeadIs(w, l.r);
        AwaitedCompletes(l.alloc, w.mem, w.rings[l.r].node, w.rings[l.r].cq[0]);
      } else {
        MemoryKept(l, w, ws[j], a);
      }
    }
  }

  lemma {:induction false} MessageWaits(ls: seq<Label>, ws: seq<World>, i: nat, j: nat, a: Addr)
    requires IsRun(ls, ws) && i <= j <= |ls| && a in ws[i].mem && ws[i].mem[a].ConnMessage?
    requires forall k | i <= k < j :: !Handles(ls[k], ws[k], a)
    ensures a in ws[j].mem && ws[j].mem[a] == ws[i].mem[a]
    decreases j
  {
    if i < j {
      MessageWaits(ls, ws, i, j - 1, a);
      RunIsFull(ls, ws, j - 1);
      assert StepOf(ls, ws, j - 1);
      if ls[j - 1] == LEndIo(a) { AboutCell(ws[j - 1], a); }
      MemoryKept(ls[j - 1], ws[j - 1], ws[j], a);
    }
  }

  // -- Transfers stay with the worker that was picked

  ghost predicate SameTransfer(w: World, w': World, s: int) {
    SendingAt(w, s) ==> SendingAt(w', s) && TransferAt(w', s).worker == TransferAt(w, s).worker
                        && TransferAt(w', s).helper == TransferAt(w, s).helper
  }

  lemma OwnerTransfers(l: Label, w: World, s: int)
    requires Inv(w) && Enabled(l, w) && (l.LMove? || l.LRelease? || l.LDestroy? || l.LSendConn?)
    ensures SameTransfer(w, Apply(l, w), s)
  {
    if Responsible(w.conns[l.c]).slot >= 0 { OwnedHome(w, l.c); }
  }

  lemma AssignTransfers(w: World, d: ConnId, c: ConnId, s: int)
    requires Inv(w) && CanAssign(w, d, c)
    ensures SameTransfer(w, AssignConn(w, d, c), s)
  {
    if Responsible(w.conns[c]).slot >= 0 { OwnedHome(w, c); }
    if Responsible(w.conns[d]).slot >= 0 { OwnedHome(w, d); }
  }

  lemma AcceptTransfers(w: World, t: int, k: Sock, c: ConnId, s: int)
    requires Inv(w) && CanAccept(w, t, k, c)
    ensures SameTransfer(w, AcceptConn(w, t, k, c), s)
  {
    if Key(0, t) in w.past.hold { HeldIsOpen(w, Key(0, t)); }
  }

  lemma ExecTransfers(l: Label, w: World, s: int)
    requires Inv(w) && Enabled(l, w) && (l.LExecFd? || l.LExecTask? || l.LExecPost? || l.LExecClose?)
    ensures SameTransfer(w, Apply(l, w), s)
  {
    AboutOp(w, l.id);
    if SendingAt(w, s) { HeldIsOpen(w, Key(0, s)); }
    if l.LExecFd? { FdReadied(w, l.id, l.there, l.id2); }
  }

  lemma HandleTransfers(w: World, alloc: Alloc, r: nat, id: OpId, c: ConnId, s: int)
    requires Inv(w) && CanHandle(w, alloc, r, id, c)
    requires SendingAt(w, s) && w.rings[r].cq[0].data != TransferAt(w, s).helper
    ensures SameTransfer(w, HandleHead(w, alloc, r, id, c), s)
  {
    HeadIs(w, r);
    AboutCell(w, Data(w, r));
    var m := w.mem[Data(w, r)];
    if m.TaskMessage? { HandleIsTask(w, alloc, r, id, c); }
    else if m.ConnMessage? {
      LookupIsCorrect(w, r);
      HandleIsConn(w, alloc, r, id, c);
    }
    else if m.op.RingFdReceiver? { HandleIsFd(w, alloc, r, id, c); }
    else if m.op in {RingFdSender, RingTask} { HandleIsSender(w, alloc, r, id, c); }
    else if m.op.MainRingCloseDirectSocket? { HandleIsRelease(w, alloc, r, id, c); }
    else { HandleIsIo(w, alloc, r, id, c); }
  }

  lemma TransferStays(l: Label, w: World, w': World, s: int)
    requires Inv(w) && Step(l, w, w') && SendingAt(w, s) && !Handles(l, w, TransferAt(w, s).helper)
    ensures SameTransfer(w, w', s)
  {
    if l.LAccept? { AcceptTransfers(w, l.s, l.k, l.c, s); }
    else if l.LAssign? { AssignTransfers(w, l.d, l.c, s); }
    else if l.LMove? || l.LRelease? || l.LDestroy? || l.LSendConn? { OwnerTransfers(l, w, s); }
    else if l.LExecFd? || l.LExecTask? || l.LExecPost? || l.LExecClose? { ExecTransfers(l, w, s); }
    else if l.LHandle? { HandleTransfers(w, l.alloc, l.r, l.id, l.c, s); }
  }

  lemma {:induction false} TransferWaits(ls: seq<Label>, ws: seq<World>, i: nat, j: nat, s: int)
    requires IsRun(ls, ws) && i <= j <= |ls| && SendingAt(ws[i], s)
    requires forall k | i <= k < j :: !Handles(ls[k], ws[k], TransferAt(ws[i], s).helper)
    ensures SameTransfer(ws[i], ws[j], s)
    decreases j
  {
    if i < j {
      TransferWaits(ls, ws, i, j - 1, s);
      RunIsFull(ls, ws, j - 1);
      assert StepOf(ls, ws, j - 1);
      TransferStays(ls[j - 1], ws[j - 1], ws[j], s);
    }
  }

  lemma HeadIsFor(w: World, r: nat)
    requires Inv(w) && AtHead(w, r) && w.mem[Data(w, r)].ConnMessage?
    ensures var s := w.mem[Data(w, r)].slot; SendingAt(w, s) && TransferAt(w, s).worker == r
  {}

  /** The function that parallel_spawn is given with a connection is the one that starts, on the ring that
      was picked and nowhere else, with a connection bound there, when the message is handled; until
      then the message stays as it was made. */
  lemma FunctionArrives(ls: seq<Label>, ws: seq<World>, i: nat, j: nat)
    requires IsRun(ls, ws) && i < j < |ls| && ls[i].LSendConn? && Handles(ls[j], ws[j], ls[i].n.helper)
    requires forall k | i < k < j :: !Handles(ls[k], ws[k], ls[i].n.helper)
    ensures var l, r := ls[i], ls[j].r;
      && r == l.target < |ws[j].rings| == |ws[j + 1].rings|
      && var before, after := ws[j].rings[r].node.peer, ws[j + 1].rings[r].node.peer;
      && |after| == |before| + 1 && before <= after
      && after[|before|].job.WithConn? && after[|before|].job.func == l.func
      && ls[j].c in ws[j + 1].conns && ws[j + 1].conns[ls[j].c] == Placed(r, after[|before|].job.conn)
      && !after[|before|].pending
  {
    var a := ls[i].n.helper;
    assert StepOf(ls, ws, i);
    var s := ws[i].conns[ls[i].c].conn.socket;
    assert ws[i + 1].mem[a] == ConnMessage(ls[i].func, s);
    MessageWaits(ls, ws, i + 1, j, a);
    TransferWaits(ls, ws, i + 1, j, s);
    RunIsFull(ls, ws, j);
    assert StepOf(ls, ws, j);
    var w, l := ws[j], ls[j];
    HeadIs(w, l.r);
    HeadIsFor(w, l.r);
    LookupIsCorrect(w, l.r);
    HandOffIsATask(l.alloc, w.mem, w.rings[l.r].node, w.rings[l.r].cq[0]);
    HandleIsConn(w, l.alloc, l.r, l.id, l.c);
  }
}
