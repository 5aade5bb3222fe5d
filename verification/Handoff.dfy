/** Main ring, worker rings and the kernel between them: the protocol that hands a connection, or a
    plain task, from the main ring to a worker. */
module Handoff {
  import opened Common
  import opened Messages
  import opened Connection
  import opened UringRing

  type Sock = nat
  type ConnId = nat
  type OpId = nat

  // An index into a ring's table of direct files; ring 0 is the main ring.
  datatype Key = Key(ring: nat, slot: int)

  // Submitted work the kernel has still to do, in any order. `Link` is a chain of two messages to
  // one worker, the descriptor and then the task; `LinkTask` is what is left after the first.
  datatype KernelOp =
    | Link(target: nat, slot: int, recv: Addr, sender: Addr, helper: Addr)
    | LinkTask(target: nat, helper: Addr)
    | Post(ring: nat, cqe: Cqe)
    | Close(key: Key)

  datatype Ring = Ring(cq: seq<Cqe>, table: map<int, Sock>, node: Node)
  datatype Placed = Placed(ring: nat, conn: Conn)

  // What a slot is open for. History: no step looks at it.
  datatype Holder =
    | OwnedBy(c: ConnId)
    | Sending(h: Transfer)      // main slot, until the worker has its connection
    | Arriving(mainSlot: int)   // worker slot, until the worker has its connection
    | Releasing(token: Addr)    // main slot, until the main ring handles the release notice
    | Closing(op: OpId)
    | Leaked                    // its connection was overwritten or released

  datatype Transfer = Transfer(worker: nat, helper: Addr, recv: Addr, op: OpId, stage: Stage)
  datatype Stage = Linked | FdSent(there: int) | TaskSent(there: int)

  // Where a token or message is: with a kernel operation, in a queue, or back in its frame.
  datatype Loc = WithOp(op: OpId) | InQueue(ring: nat) | InFrame

  datatype Spawned = Spawned(ring: nat, msg: Addr)

  datatype History = History(
    loc: map<Addr, Loc>,
    hold: map<Key, Holder>,
    home: map<Sock, Key>,            // the slot of a socket's connection
    dead: set<Sock>,                 // sockets whose last connection is gone
    closes: multiset<(nat, Sock)>,   // closes issued, by ring and socket
    spawned: map<TaskId, Spawned>,
    arrived: set<TaskId>)

  datatype World = World(mem: Memory, rings: seq<Ring>, ops: map<OpId, KernelOp>, conns: map<ConnId, Placed>,
    past: History)
  {
    predicate Open(k: Key) { k.ring < |rings| && k.slot in rings[k.ring].table }
    function SockAt(k: Key): Sock
      requires Open(k)
    {
      rings[k.ring].table[k.slot]
    }
    predicate FreshAddr(a: Addr) { a != NULL && a !in mem }
    predicate IsWorker(r: nat) { 1 <= r < |rings| }
  }

  // The slot a connection will close when it is destroyed; no slot if negative.
  function Responsible(p: Placed): Key {
    match DestructorClose(p.conn)
    case CloseInSysRing(slot) => Key(0, slot)
    case CloseInThisRing(slot) => Key(p.ring, slot)
    case NoClose => Key(p.ring, NO_SLOT)
  }

  // -- The steps

  // accept() on the main ring: the kernel puts a new socket in a free slot.
  predicate CanAccept(w: World, s: int, k: Sock, c: ConnId) {
    |w.rings| > 0 && s >= 0 && s !in w.rings[0].table && k !in w.past.home && c !in w.conns
  }
  function AcceptConn(w: World, s: int, k: Sock, c: ConnId): World
    requires CanAccept(w, s, k, c)
  {
    w.(rings := w.rings[0 := w.rings[0].(table := w.rings[0].table[s := k])],
       conns := w.conns[c := Placed(0, Accepted(s))],
       past := w.past.(hold := w.past.hold[Key(0, s) := OwnedBy(c)], home := w.past.home[k := Key(0, s)]))
  }

  predicate CanMove(w: World, c: ConnId, to: ConnId) { c in w.conns && to !in w.conns }
  function MoveConn(w: World, c: ConnId, to: ConnId): World
    requires CanMove(w, c, to)
  {
    var p := w.conns[c];
    var key := Responsible(p);
    w.(conns := w.conns[to := p][c := p.(conn := MovedFrom(p.conn))],
       past := if key.slot >= 0 then w.past.(hold := w.past.hold[key := OwnedBy(to)]) else w.past)
  }

  predicate CanAssign(w: World, d: ConnId, c: ConnId) {
    d in w.conns && c in w.conns && d != c && w.conns[d].ring == w.conns[c].ring
  }
  function AssignConn(w: World, d: ConnId, c: ConnId): World
    requires CanAssign(w, d, c)
  {
    var p := w.conns[c];
    var lost, key := Responsible(w.conns[d]), Responsible(p);
    var dropped := if lost.slot >= 0 then Drop(w, lost, Leaked) else w.past;
    w.(conns := w.conns[d := p][c := p.(conn := MovedFrom(p.conn))],
       past := if key.slot >= 0 then dropped.(hold := dropped.hold[key := OwnedBy(d)]) else dropped)
  }

  // The socket of `key` has lost its last connection.
  function Drop(w: World, key: Key, h: Holder): History {
    w.past.(hold := w.past.hold[key := h], dead := w.past.dead + (if w.Open(key) then {w.SockAt(key)} else {}))
  }

  function IssueClose(w: World, past: History, key: Key): History {
    past.(closes := past.closes + (if w.Open(key) then multiset{(key.ring, w.SockAt(key))} else multiset{}))
  }

  predicate CanDestroy(w: World, c: ConnId, id: OpId) { c in w.conns && id !in w.ops }
  function DestroyConn(w: World, c: ConnId, id: OpId): World
    requires CanDestroy(w, c, id)
  {
    var key := Responsible(w.conns[c]);
    var w1 := w.(conns := w.conns - {c});
    if DestructorClose(w.conns[c].conn).NoClose? then w1
    else w1.(ops := w.ops[id := Close(key)],
             past := if key.slot >= 0 then IssueClose(w, Drop(w, key, Closing(id)), key) else w.past)
  }

  // release() of a connection by its holder. Only the main ring's connections let themselves be released.
  predicate CanRelease(w: World, c: ConnId) { c in w.conns && w.conns[c].conn.ownedInSysRing }
  function ReleaseConn(w: World, c: ConnId): World
    requires CanRelease(w, c)
  {
    var p := w.conns[c];
    var key := Responsible(p);
    w.(conns := w.conns[c := p.(conn := Released(p.conn))],
       past := if key.slot >= 0 then Drop(w, key, Leaked) else w.past)
  }

  // parallel_spawn with a live connection of the main ring.
  datatype Names = Names(helper: Addr, recv: Addr, sender: Addr, op: OpId)

  predicate CanSendConn(w: World, c: ConnId, target: nat, n: Names) {
    && c in w.conns && w.conns[c].conn.ownedInSysRing && w.conns[c].conn.socket >= 0
    && w.IsWorker(target) && n.op !in w.ops
    && w.FreshAddr(n.helper) && w.FreshAddr(n.recv) && w.FreshAddr(n.sender)
    && n.helper != n.recv && n.helper != n.sender && n.recv != n.sender
  }
  function SendConn(w: World, c: ConnId, target: nat, func: FuncId, n: Names): World
    requires CanSendConn(w, c, target, n)
  {
    var slot := w.conns[c].conn.socket;
    w.(mem := w.mem[n.helper := ConnMessage(func, slot)]
                   [n.sender := Token(RingFdSender, 0, -38, 0)]
                   [n.recv := Token(RingFdReceiver, 0, slot, 0)],
       ops := w.ops[n.op := Link(target, slot, n.recv, n.sender, n.helper)],
       conns := w.conns[c := w.conns[c].(conn := Released(w.conns[c].conn))],
       past := w.past.(
         loc := w.past.loc[n.helper := WithOp(n.op)][n.sender := WithOp(n.op)][n.recv := WithOp(n.op)],
         hold := w.past.hold[Key(0, slot) := Sending(Transfer(target, n.helper, n.recv, n.op, Linked))]))
  }

  // parallel_spawn of a plain task: a message to the worker, and a completion of the sender's own.
  predicate CanSendTask(w: World, t: TaskId, target: nat, msg: Addr, token: Addr, id: OpId, id2: OpId) {
    && w.IsWorker(target) && t !in w.past.spawned && w.FreshAddr(msg) && w.FreshAddr(token) && msg != token
    && id !in w.ops && id2 !in w.ops && id != id2
  }
  function SendTask(w: World, t: TaskId, target: nat, msg: Addr, token: Addr, id: OpId, id2: OpId): World
    requires CanSendTask(w, t, target, msg, token, id, id2)
  {
    w.(mem := w.mem[msg := TaskMessage(t)][token := Token(RingTask, 0, -38, 0)],
       ops := w.ops[id := Post(target, Entry(SpawnTask(msg)))][id2 := Post(0, Entry(PlainMessage(0, token)))],
       past := w.past.(loc := w.past.loc[msg := WithOp(id)][token := WithOp(id2)],
                       spawned := w.past.spawned[t := Spawned(target, msg)]))
  }

  // co_spawn, on any ring.
  predicate CanCoSpawn(w: World, r: nat) { r < |w.rings| }
  function CoSpawn(w: World, r: nat): World
    requires CanCoSpawn(w, r)
  {
    var n := w.rings[r].node;
    w.(rings := w.rings[r := w.rings[r].(node := n.(peer := n.peer + [PeerTask(Local, false)]))])
  }

  // An I/O operation of some root, whatever it is: the kernel may complete it with any result, and flags without bit 4.
  predicate CanStartIo(w: World, r: nat, op: Op, root: nat, a: Addr, id: OpId, flags: nat) {
    && Awaited(op) && r < |w.rings| && root < |w.rings[r].node.peer|
    && w.FreshAddr(a) && id !in w.ops && !HasTaskFlag(flags)
  }
  function StartIo(w: World, r: nat, op: Op, root: nat, a: Addr, id: OpId, res: int, flags: nat): World
    requires CanStartIo(w, r, op, root, a, id, flags)
  {
    var n := w.rings[r].node;
    w.(mem := w.mem[a := Token(op, root, -38, 0)],
       rings := w.rings[r := w.rings[r].(node := n.(peer := n.peer[root := n.peer[root].(pending := true)]))],
       ops := w.ops[id := Post(r, Entry(OpDone(res, flags, a)))],
       past := w.past.(loc := w.past.loc[a := WithOp(id)]))
  }

  // The awaiter of a finished operation goes, and its token with it.
  predicate CanEndIo(w: World, a: Addr) { a in w.mem && a in w.past.loc && w.past.loc[a].InFrame? }
  function EndIo(w: World, a: Addr): World
    requires CanEndIo(w, a)
  {
    w.(mem := w.mem - {a}, past := w.past.(loc := w.past.loc - {a}))
  }

  function Enter(r: Ring, c: Cqe): Ring { r.(cq := r.cq + [c]) }

  // The descriptor message of a chain: the socket gets a free slot of the worker as well.
  predicate CanExecFd(w: World, id: OpId, there: int, id2: OpId) {
    && id in w.ops && w.ops[id].Link? && id2 !in w.ops && w.ops[id].target < |w.rings|
    && w.Open(Key(0, w.ops[id].slot)) && there >= 0 && there !in w.rings[w.ops[id].target].table
  }
  function ExecFd(w: World, id: OpId, there: int, id2: OpId): World
    requires CanExecFd(w, id, there, id2)
  {
    var o := w.ops[id];
    var ring, key := w.rings[o.target], Key(0, o.slot);
    w.(rings := w.rings[o.target := Enter(ring.(table := ring.table[there := w.SockAt(key)]),
      Entry(FdInstalled(there, o.recv)))],
       ops := w.ops[id := LinkTask(o.target, o.helper)][id2 := Post(0, Entry(FdInstalled(there, o.sender)))],
       past := w.past.(loc := w.past.loc[o.recv := InQueue(o.target)][o.sender := WithOp(id2)],
                       hold := FdIsSent(w.past.hold, key, there)[Key(o.target, there) := Arriving(o.slot)]))
  }

  function FdIsSent(hold: map<Key, Holder>, key: Key, there: int): map<Key, Holder> {
    if key in hold && hold[key].Sending? then hold[key := Sending(hold[key].h.(stage := FdSent(there)))] else hold
  }

  predicate CanExecTask(w: World, id: OpId) { id in w.ops && w.ops[id].LinkTask? && w.ops[id].target < |w.rings| }
  function ExecTask(w: World, id: OpId): World
    requires CanExecTask(w, id)
  {
    var o := w.ops[id];
    w.(rings := w.rings[o.target := Enter(w.rings[o.target], Entry(SpawnConn(o.helper)))],
       ops := w.ops - {id},
       past := w.past.(loc := w.past.loc[o.helper := InQueue(o.target)],
         hold := TaskIsSent(w.mem, w.past.hold, o.helper)))
  }

  function TaskIsSent(mem: Memory, hold: map<Key, Holder>, helper: Addr): map<Key, Holder> {
    if helper !in mem || !mem[helper].ConnMessage? then hold else
    var key := Key(0, mem[helper].slot);
    if key in hold && hold[key].Sending? && hold[key].h.stage.FdSent?
    then hold[key := Sending(hold[key].h.(stage := TaskSent(hold[key].h.stage.there)))] else hold
  }

  predicate CanExecPost(w: World, id: OpId) { id in w.ops && w.ops[id].Post? && w.ops[id].ring < |w.rings| }
  function ExecPost(w: World, id: OpId): World
    requires CanExecPost(w, id)
  {
    var o := w.ops[id];
    w.(rings := w.rings[o.ring := Enter(w.rings[o.ring], o.cqe)],
       ops := w.ops - {id},
       past := w.past.(loc := w.past.loc[o.cqe.data := InQueue(o.ring)]))
  }

  predicate CanExecClose(w: World, id: OpId) { id in w.ops && w.ops[id].Close? && w.ops[id].key.ring < |w.rings| }
  function ExecClose(w: World, id: OpId): World
    requires CanExecClose(w, id)
  {
    var key := w.ops[id].key;
    var ring := w.rings[key.ring];
    w.(rings := w.rings[key.ring := ring.(table := ring.table - {key.slot})],
       ops := w.ops - {id},
       past := w.past.(hold := w.past.hold - {key}))
  }

  // A ring handles the completion at the head of its queue; `id` names what it submits, `c` the
  // connection it makes, if any.
  predicate CanHandle(w: World, alloc: Alloc, r: nat, id: OpId, c: ConnId) {
    && r < |w.rings| && w.rings[r].cq != [] && id !in w.ops && c !in w.conns
    && HandleRequest(alloc, w.mem, w.rings[r].node, w.rings[r].cq[0]).Handled?
  }
  function HandleHead(w: World, alloc: Alloc, r: nat, id: OpId, c: ConnId): World
    requires CanHandle(w, alloc, r, id, c)
  {
    var ring := w.rings[r];
    var e := ring.cq[0];
    var done := HandleRequest(alloc, w.mem, ring.node, e);
    var out := done.node.submitted;
    World(done.mem,
          w.rings[r := ring.(cq := ring.cq[1..], node := done.node.(submitted := []))],
          if out == [] then w.ops else w.ops[id := Submit(r, out[|out| - 1])],
          if Dispatch(e).ConnBranch? then w.conns[c := Placed(r, NewConn(done.node))] else w.conns,
          HandlePast(w, done.mem, r, e, alloc(w.mem.Keys - {e.data}), id, c))
  }

  // The connection that has just been moved into a new task.
  function NewConn(n: Node): Conn {
    if n.peer != [] && n.peer[|n.peer| - 1].job.WithConn? then n.peer[|n.peer| - 1].job.conn else Accepted(NO_SLOT)
  }

  function Submit(r: nat, s: Sqe): KernelOp {
    match s
    case CloseDirect(slot) => Close(Key(r, slot))
    case NotifyMain(slot, token) => Post(0, Entry(PlainMessage(slot, token)))
  }

  function HandlePast(w: World, mem': Memory, r: nat, e: Cqe, notice: Addr, id: OpId, c: ConnId): History
    requires r < |w.rings|
  {
    var p := w.past;
    if e.data !in w.mem then p else
    match w.mem[e.data]
    case TaskMessage(t) => p.(loc := p.loc - {e.data}, arrived := p.arrived + {t})
    case ConnMessage(_, s) =>
      var here := if s in w.rings[r].node.directMap then w.rings[r].node.directMap[s] else 0;
      var key := Key(r, here);
      p.(loc := (p.loc - {e.data})[notice := WithOp(id)],
         hold := p.hold[Key(0, s) := Releasing(notice)][key := OwnedBy(c)],
         home := if w.Open(key) then p.home[w.SockAt(key) := key] else p.home)
    case MultiMessage(_) => p.(loc := p.loc - {e.data})
    case Token(op, _, _, _) =>
      if op.MainRingCloseDirectSocket? then
        IssueClose(w, p.(loc := p.loc - {e.data}, hold := p.hold[Key(r, e.res) := Closing(id)]), Key(r, e.res))
      else if e.data in mem' then p.(loc := p.loc[e.data := InFrame])
      else p.(loc := p.loc - {e.data})
  }

  datatype Label =
    | LAccept(s: int, k: Sock, c: ConnId)
    | LMove(c: ConnId, to: ConnId)
    | LAssign(d: ConnId, c: ConnId)
    | LRelease(c: ConnId)
    | LDestroy(c: ConnId, id: OpId)
    | LSendConn(c: ConnId, target: nat, func: FuncId, n: Names)
    | LSendTask(t: TaskId, target: nat, msg: Addr, token: Addr, id: OpId, id2: OpId)
    | LCoSpawn(r: nat)
    | LStartIo(r: nat, op: Op, root: nat, a: Addr, id: OpId, res: int, flags: nat)
    | LEndIo(a: Addr)
    | LExecFd(id: OpId, there: int, id2: OpId)
    | LExecTask(id: OpId)
    | LExecPost(id: OpId)
    | LExecClose(id: OpId)
    | LHandle(alloc: Alloc, r: nat, id: OpId, c: ConnId)

  ghost predicate Enabled(l: Label, w: World) {
    match l
    case LAccept(s, k, c) => CanAccept(w, s, k, c)
    case LMove(c, to) => CanMove(w, c, to)
    case LAssign(d, c) => CanAssign(w, d, c)
    case LRelease(c) => CanRelease(w, c)
    case LDestroy(c, id) => CanDestroy(w, c, id)
    case LSendConn(c, target, _, n) => CanSendConn(w, c, target, n)
    case LSendTask(t, target, msg, token, id, id2) => CanSendTask(w, t, target, msg, token, id, id2)
    case LCoSpawn(r) => CanCoSpawn(w, r)
    case LStartIo(r, op, root, a, id, _, flags) => CanStartIo(w, r, op, root, a, id, flags)
    case LEndIo(a) => CanEndIo(w, a)
    case LExecFd(id, there, id2) => CanExecFd(w, id, there, id2)
    case LExecTask(id) => CanExecTask(w, id)
    case LExecPost(id) => CanExecPost(w, id)
    case LExecClose(id) => CanExecClose(w, id)
    case LHandle(alloc, r, id, c) => GoodAlloc(alloc) && CanHandle(w, alloc, r, id, c)
  }

  ghost function Apply(l: Label, w: World): World
    requires Enabled(l, w)
  {
    match l
    case LAccept(s, k, c) => AcceptConn(w, s, k, c)
    case LMove(c, to) => MoveConn(w, c, to)
    case LAssign(d, c) => AssignConn(w, d, c)
    case LRelease(c) => ReleaseConn(w, c)
    case LDestroy(c, id) => DestroyConn(w, c, id)
    case LSendConn(c, target, func, n) => SendConn(w, c, target, func, n)
    case LSendTask(t, target, msg, token, id, id2) => SendTask(w, t, target, msg, token, id, id2)
    case LCoSpawn(r) => CoSpawn(w, r)
    case LStartIo(r, op, root, a, id, res, flags) => StartIo(w, r, op, root, a, id, res, flags)
    case LEndIo(a) => EndIo(w, a)
    case LExecFd(id, there, id2) => ExecFd(w, id, there, id2)
    case LExecTask(id) => ExecTask(w, id)
    case LExecPost(id) => ExecPost(w, id)
    case LExecClose(id) => ExecClose(w, id)
    case LHandle(alloc, r, id, c) => HandleHead(w, alloc, r, id, c)
  }

  // Nothing is open, sent or queued; no ring has any task but its own.
  ghost predicate Initial(w: World) {
    && |w.rings| > 0 && w.mem == map[] && w.ops == map[] && w.conns == map[]
    && w.past == History(map[], map[], map[], {}, multiset{}, map[], {})
    && forall r | 0 <= r < |w.rings| :: w.rings[r].cq == [] && w.rings[r].table == map[] && IdleNode(w.rings[r].node)
  }

  predicate IdleNode(n: Node) {
    n.directMap == map[] && n.submitted == [] && forall i | 0 <= i < |n.peer| :: n.peer[i].job.Local?
  }

  ghost predicate Step(l: Label, w: World, w': World) { Enabled(l, w) && w' == Apply(l, w) }

  ghost predicate StepOf(ls: seq<Label>, ws: seq<World>, i: nat)
    requires i < |ls| && |ws| == |ls| + 1
  {
    Step(ls[i], ws[i], ws[i + 1])
  }

  ghost predicate IsRun(ls: seq<Label>, ws: seq<World>) {
    |ws| == |ls| + 1 && Initial(ws[0]) && forall i {:trigger StepOf(ls, ws, i)} | 0 <= i < |ls| :: StepOf(ls, ws, i)
  }

  ghost predicate Reachable(w: World) { exists ls, ws :: IsRun(ls, ws) && ws[|ls|] == w }
}
