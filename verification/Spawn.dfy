/** parallel_spawn on the main ring, in both forms. */
module Spawn {
  import opened Common
  import opened Messages
  import opened Connection
  import opened RoundRobin
  import opened UringRing
  import opened Handoff
  import MainLoop

  datatype SpawnResult = Sent(worker: nat) | NotInMainThread | NotOwned

  class MainRing {
    const alloc: Alloc
    const loop: MainLoop.SystemLoop
    var memory: Memory
    var submitted: seq<KernelOp>

    ghost predicate Valid()
      reads this, loop
    {
      loop.Valid() && GoodAlloc(alloc) && NULL !in memory
    }

    constructor (alloc: Alloc, loop: MainLoop.SystemLoop)
      requires loop.Valid() && GoodAlloc(alloc)
      ensures Valid() && this.loop == loop && memory == map[] && submitted == []
    {
      this.alloc, this.loop := alloc, loop;
      memory, submitted := map[], [];
    }

    // operator new, of a token or a message.
    method New(c: Cell) returns (a: Addr)
      requires Valid()
      modifies `memory
      ensures Valid() && a != NULL && a !in old(memory) && memory == old(memory)[a := c]
    {
      a := alloc(memory.Keys);
      memory := memory[a := c];
    }

    // The main ring and the workers are those of world `w`, ring 0 being the main ring.
    ghost predicate Mirrors(w: World)
      reads this, loop
    {
      w.mem == memory && |w.rings| == loop.workers + 1
    }

    // With a connection: both exceptions are thrown before anything is made or sent. The worker rings
    // are those after the main ring. In world `w` the connection is `c`, and it is a step of the
    // hand-off protocol to `w'` if the connection is live.
    method ParallelSpawnConn(func: FuncId, conn: TcpConnection, mainThread: bool, ghost w: World, ghost c: ConnId,
        ghost op: OpId)
      returns (r: SpawnResult, ghost n: Names, ghost w': World)
      requires Valid() && Mirrors(w) && c in w.conns && w.conns[c].conn == conn.V() && op !in w.ops
      modifies this, conn, loop`current
      ensures Valid()
      ensures r == (if !mainThread then NotInMainThread else if !old(conn.ownedInSysRing) then NotOwned
                    else Sent(Picks(old(loop.current), loop.workers, 1)[0] + 1))
      ensures !r.Sent? ==>
        w' == w && memory == old(memory) && submitted == old(submitted) && loop.current == old(loop.current)
          && conn.V() == old(conn.V())
      ensures r.Sent? ==>
        && conn.V() == Released(old(conn.V())) && loop.current == After(old(loop.current), loop.workers, 1)
        && SpawnsConn(old(memory), memory, func, conn.socket, n) && n.op == op
        && submitted == old(submitted) + [Link(r.worker, conn.socket, n.recv, n.sender, n.helper)]
      ensures r.Sent? && conn.socket >= 0 ==>
        && Step(LSendConn(c, r.worker, func, n), w, w') && Mirrors(w')
        && w'.conns[c].conn == conn.V() && submitted == old(submitted) + [w'.ops[op]]
    {
      n, w' := Names(0, 0, 0, op), w;
      if !mainThread { return NotInMainThread, n, w; }
      var released := conn.Release();
      if released.NotOwnedInMainRing? { return NotOwned, n, w; }
      var fd := conn.socket;
      var worker := loop.PickWorker();
      var helper := New(ConnMessage(func, fd));
      var sender := New(Token(RingFdSender, 0, -38, 0));
      var recv := New(Token(RingFdReceiver, 0, fd, 0));
      n := Names(helper, recv, sender, op);
      submitted := submitted + [Link(worker + 1, fd, recv, sender, helper)];
      r := Sent(worker + 1);
      if fd >= 0 {
        SpawnIsAStep(w, c, worker + 1, func, n, memory);
        w' := SendConn(w, c, worker + 1, func, n);
      }
    }

    // Without one. `id` and `id2` name the two halves of the message in the kernel.
    method ParallelSpawnTask(task: TaskId, mainThread: bool, ghost w: World, ghost id: OpId, ghost id2: OpId)
      returns (r: SpawnResult, ghost msg: Addr, ghost token: Addr, ghost w': World)
      requires Valid() && Mirrors(w) && task !in w.past.spawned && id !in w.ops && id2 !in w.ops && id != id2
      modifies this, loop`current
      ensures Valid()
      ensures r == if mainThread then Sent(Picks(old(loop.current), loop.workers, 1)[0] + 1) else NotInMainThread
      ensures !r.Sent? ==>
        w' == w && memory == old(memory) && submitted == old(submitted) && loop.current == old(loop.current)
      ensures r.Sent? ==>
        && loop.current == After(old(loop.current), loop.workers, 1)
        && SpawnsTask(old(memory), memory, task, msg, token)
        && submitted == old(submitted) + [Post(r.worker, Entry(SpawnTask(msg))), Post(0, Entry(PlainMessage(0, token)))]
        && Step(LSendTask(task, r.worker, msg, token, id, id2), w, w') && Mirrors(w')
        && submitted == old(submitted) + [w'.ops[id], w'.ops[id2]]
    {
      msg, token, w' := 0, 0, w;
      if !mainThread { return NotInMainThread, msg, token, w; }
      var m := New(TaskMessage(task));
      var t := New(Token(RingTask, 0, -38, 0));
      var worker := loop.PickWorker();
      submitted := submitted + [Post(worker + 1, Entry(SpawnTask(m))), Post(0, Entry(PlainMessage(0, t)))];
      r, msg, token := Sent(worker + 1), m, t;
      SpawnTaskIsAStep(w, task, worker + 1, m, t, id, id2, memory);
      w' := SendTask(w, task, worker + 1, m, t, id, id2);
    }
  }

  // What spawning puts on the heap.

  predicate SpawnsConn(mem: Memory, mem': Memory, func: FuncId, slot: int, n: Names) {
    && n.helper !in mem && n.sender !in mem && n.recv !in mem && NULL !in {n.helper, n.sender, n.recv}
    && n.helper != n.sender && n.helper != n.recv && n.sender != n.recv
    && mem' == mem[n.helper := ConnMessage(func, slot)]
                  [n.sender := Token(RingFdSender, 0, -38, 0)][n.recv := Token(RingFdReceiver, 0, slot, 0)]
  }

  predicate SpawnsTask(mem: Memory, mem': Memory, task: TaskId, msg: Addr, token: Addr) {
    && msg !in mem && token !in mem && NULL !in {msg, token} && msg != token
    && mem' == mem[msg := TaskMessage(task)][token := Token(RingTask, 0, -38, 0)]
  }

  /** What the methods do is a step of the protocol: the same heap, the same submission, the same
      connection, and nothing else but history. */
  lemma SpawnIsAStep(w: World, c: ConnId, target: nat, func: FuncId, n: Names, mem': Memory)
    requires c in w.conns && w.conns[c].conn.ownedInSysRing && w.conns[c].conn.socket >= 0 && w.IsWorker(target)
      && n.op !in w.ops
    requires SpawnsConn(w.mem, mem', func, w.conns[c].conn.socket, n)
    ensures Enabled(LSendConn(c, target, func, n), w)
    ensures var w' := Apply(LSendConn(c, target, func, n), w);
      && w'.mem == mem' && w'.ops == w.ops[n.op := Link(target, w.conns[c].conn.socket, n.recv, n.sender, n.helper)]
      && w'.conns == w.conns[c := w.conns[c].(conn := Released(w.conns[c].conn))] && w'.rings == w.rings
  {}

  lemma SpawnTaskIsAStep(w: World, t: TaskId, target: nat, msg: Addr, token: Addr, id: OpId, id2: OpId, mem': Memory)
    requires w.IsWorker(target) && t !in w.past.spawned && id !in w.ops && id2 !in w.ops && id != id2
    requires SpawnsTask(w.mem, mem', t, msg, token)
    ensures Enabled(LSendTask(t, target, msg, token, id, id2), w)
    ensures var w' := Apply(LSendTask(t, target, msg, token, id, id2), w);
      && w'.mem == mem'
      && w'.ops == w.ops[id := Post(target, Entry(SpawnTask(msg)))][id2 := Post(0, Entry(PlainMessage(0, token)))]
      && w'.conns == w.conns && w'.rings == w.rings
  {}
}
