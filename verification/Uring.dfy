/** Completion queue entries, what they point at, and how Uring::handle_request tells them apart. */
module Messages {
  import opened Common

  type TaskId = nat
  type FuncId = nat

  datatype Op =
    | Wakeup | Timeout | Socket
    | Accept | MultishotAccept | MultishotAcceptRetry | MultishotAcceptPending
    | MultishotAcceptFdSender | MultishotAcceptFdReceiver | MultishotAcceptTaskReceiver
    | RingTask | RingFdSender | RingFdReceiver
    | Send
    | Receive | MultishotReceive | RegisterRingBuffer
    | Shutdown
    | OpClose | SyncCloseDirect | AsyncCloseDirect | MainRingCloseDirectSocket
    | CancelAny
    | Quit
    | Unknown

  // RingMsgType, carried in the result of a message's completion.
  const RING_TASK := 0x7a51
  const RING_FUNC_TASK := 0x7a51b
  const MULTI_ACC_TASK := 0x7a51c

  const F_TASK := 16  // NET_IORING_CQE_F_TASK, bit 4 of the flags

  // What user_data may point at: a completion token, on the heap or in a coroutine frame, or one
  // of the heap-allocated messages.
  datatype Cell =
    | Token(op: Op, root: nat, res: int, flags: int)
    | TaskMessage(task: TaskId)
    | ConnMessage(func: FuncId, slot: int)
    | MultiMessage(func: FuncId)

  datatype Cqe = Cqe(res: int, flags: nat, data: Addr)

  // The operations whose tokens are awaiters' own: handling has no case for them but the default.
  predicate Awaited(op: Op) {
    && !op.SyncCloseDirect? && !op.Quit? && !op.CancelAny? && !op.RingTask? && !op.RingFdSender? && !op.RingFdReceiver?
    && !op.MainRingCloseDirectSocket? && !op.MultishotAccept? && !op.MultishotAcceptFdReceiver?
  }

  // Those that awaiters embed, and those that nobody uses.
  lemma AwaitedOps(op: Op)
    ensures Awaited(op) <==> op in {
      Socket, Accept, Send, Receive, Timeout, OpClose, AsyncCloseDirect,
      Wakeup, MultishotAcceptRetry, MultishotAcceptPending, MultishotAcceptFdSender, MultishotAcceptTaskReceiver,
      MultishotReceive, RegisterRingBuffer, Shutdown, Unknown}
  {}

  predicate HasTaskFlag(flags: nat) { (flags / F_TASK) % 2 == 1 }

  // The branch handle_request takes.
  datatype Branch = TaskBranch | ConnBranch | MultiBranch | TokenBranch | NullBranch

  function Dispatch(c: Cqe): Branch {
    if c.res == RING_TASK && HasTaskFlag(c.flags) then TaskBranch
    else if c.res == RING_FUNC_TASK && HasTaskFlag(c.flags) then ConnBranch
    else if c.res == MULTI_ACC_TASK && HasTaskFlag(c.flags) then MultiBranch
    else if c.data != NULL then TokenBranch
    else NullBranch
  }

  // The entries the program and the kernel put into completion queues.
  datatype Posting =
    | SpawnTask(msg: Addr)                      // parallel_spawn of a task
    | SpawnConn(helper: Addr)                   // parallel_spawn with a connection
    | SpawnAccepted(msg: Addr)                  // hand-off of a multishot accept
    | FdInstalled(slot: int, token: Addr)       // both ends of a direct descriptor message
    | PlainMessage(len: int, token: Addr)       // release notice, quit
    | OpDone(res: int, flags: nat, token: Addr) // any operation of the kernel

  function Entry(p: Posting): Cqe {
    match p
    case SpawnTask(msg) => Cqe(RING_TASK, F_TASK, msg)
    case SpawnConn(helper) => Cqe(RING_FUNC_TASK, F_TASK, helper)
    case SpawnAccepted(msg) => Cqe(MULTI_ACC_TASK, F_TASK, msg)
    case FdInstalled(slot, token) => Cqe(slot, 0, token)
    case PlainMessage(len, token) => Cqe(len, 0, token)
    case OpDone(res, flags, token) => Cqe(res, flags, token)
  }

  function SentAs(p: Posting): Branch {
    match p
    case SpawnTask(_) => TaskBranch
    case SpawnConn(_) => ConnBranch
    case SpawnAccepted(_) => MultiBranch
    case FdInstalled(_, token) => if token == NULL then NullBranch else TokenBranch
    case PlainMessage(_, token) => if token == NULL then NullBranch else TokenBranch
    case OpDone(_, _, token) => if token == NULL then NullBranch else TokenBranch
  }

  /** Every entry is dispatched as what it was sent as, even when a slot or a byte count equals one
      of the magic numbers, except for an operation of the kernel whose flags carry bit 4 and whose
      result happens to be a magic number. */
  lemma DispatchIsUnambiguous(p: Posting)
    ensures Dispatch(Entry(p)) == SentAs(p)
      <==> !(p.OpDone? && HasTaskFlag(p.flags) && p.res in {RING_TASK, RING_FUNC_TASK, MULTI_ACC_TASK})
  {
    if p.SpawnTask? || p.SpawnConn? || p.SpawnAccepted? { assert HasTaskFlag(F_TASK); }
  }

  // A buffer id sits above bit 16 and can never set bit 4: only the kernel's own low flags could.
  lemma BufferIdKeepsBit4(bid: nat, low: nat)
    requires low < 0x10000
    ensures HasTaskFlag(bid * 0x10000 + low) <==> HasTaskFlag(low)
  {
    assert bid * 0x10000 + low == (bid * 0x1000) * F_TASK + low;
    DivShift(bid * 0x1000, low);
    assert (bid * 0x1000 + low / F_TASK) % 2 == (low / F_TASK) % 2 by { ModShift(bid * 0x800, low / F_TASK); }
  }

  lemma DivShift(k: nat, x: nat)
    ensures (k * F_TASK + x) / F_TASK == k + x / F_TASK
  {}

  lemma ModShift(k: nat, x: nat)
    ensures (k * 2 + x) % 2 == x % 2
  {}
}

/** Uring: the ring's own data, what handling one completion does to it, and batches of them. */
module UringRing {
  import opened Common
  import opened Messages
  import opened Connection

  const BATCH := 256  // URING_PEEK_CQES_BATCH

  // A root spawned on its own ring, one sent by parallel_spawn, or one with a connection.
  datatype Job = Local | Plain(task: TaskId) | WithConn(func: FuncId, conn: Conn)

  // A task of the peer task loop, and whether it is pending.
  datatype PeerTask = PeerTask(job: Job, pending: bool)

  // What handling completions makes the ring submit.
  datatype Sqe =
    | CloseDirect(slot: int)
    | NotifyMain(slot: int, token: Addr)  // message to the main ring: its slot may be closed

  datatype Node = Node(
    directMap: map<int, int>,
    awaiting: seq<int>,
    stopped: bool,
    peer: seq<PeerTask>,
    submitted: seq<Sqe>)

  type Memory = map<Addr, Cell>

  // `Fault`: user_data was used while pointing at nothing, or at something of another kind.
  datatype Handled = Handled(mem: Memory, node: Node) | Fault

  const RELEASE_NOTICE := Token(MainRingCloseDirectSocket, 0, 0, 0)

  function HandleRequest(alloc: Alloc, mem: Memory, n: Node, c: Cqe): Handled {
    if Dispatch(c).NullBranch? then Handled(mem, n) else
    if c.data !in mem then Fault else
    var cell := mem[c.data];
    if Dispatch(c).TaskBranch? then
      if cell.TaskMessage? then Handled(mem - {c.data}, n.(peer := n.peer + [PeerTask(Plain(cell.task), false)]))
        else Fault
    else if Dispatch(c).ConnBranch? then
      if cell.ConnMessage? then HandleConn(alloc, mem - {c.data}, n, cell.func, cell.slot) else Fault
    else if Dispatch(c).MultiBranch? then
      if cell.MultiMessage? then Handled(mem - {c.data}, n.(peer := n.peer + ForAccepted(cell.func, n.awaiting)))
        else Fault
    else
      if cell.Token? then HandleToken(mem, n, c, cell.op, cell.root, cell.res) else Fault
  }

  function ForAccepted(func: FuncId, slots: seq<int>): seq<PeerTask> {
    if slots == [] then []
    else ForAccepted(func, slots[..|slots| - 1]) + [PeerTask(WithConn(func, Accepted(slots[|slots| - 1])), false)]
  }

  // A connection arrives: look its slot up, bind a connection to it, and let the main ring go.
  function HandleConn(alloc: Alloc, mem: Memory, n: Node, func: FuncId, slot: int): Handled {
    var here := if slot in n.directMap then n.directMap[slot] else 0;
    var token := alloc(mem.Keys);
    Handled(mem[token := RELEASE_NOTICE],
            n.(directMap := n.directMap - {slot},
               peer := n.peer + [PeerTask(WithConn(func, Rebound(Accepted(NO_SLOT), here)), false)],
               submitted := n.submitted + [NotifyMain(slot, token)]))
  }

  function HandleToken(mem: Memory, n: Node, c: Cqe, op: Op, root: nat, res: int): Handled {
    if op.Quit? then Handled(mem - {c.data}, n.(stopped := true))
    else if op in {SyncCloseDirect, CancelAny, RingTask, RingFdSender} then Handled(mem - {c.data}, n)
    else if op.RingFdReceiver? then Handled(mem - {c.data}, n.(directMap := n.directMap[res := c.res]))
    else if op.MainRingCloseDirectSocket? then
      Handled(mem - {c.data}, n.(submitted := n.submitted + [CloseDirect(c.res)]))
    else if op.MultishotAccept? then Wake(mem, WithAccepted(n, c.res), root)
    else if op.MultishotAcceptFdReceiver? then Handled(mem - {c.data}, WithAccepted(n, c.res))
    else Wake(mem[c.data := Token(op, root, c.res, c.flags)], n, root)
  }

  function WithAccepted(n: Node, res: int): Node { if res >= 0 then n.(awaiting := n.awaiting + [res]) else n }

  function Wake(mem: Memory, n: Node, root: nat): Handled {
    if root >= |n.peer| then Fault
    else Handled(mem, n.(peer := n.peer[root := n.peer[root].(pending := false)]))
  }

  // -- What each kind of completion does

  /** The completion of an operation that some root awaits stays where it is, in the awaiter, with its
      result and flags; the root is woken, and nothing else changes. */
  lemma AwaitedCompletes(alloc: Alloc, mem: Memory, n: Node, c: Cqe)
    requires Dispatch(c).TokenBranch? && c.data in mem && mem[c.data].Token? && Awaited(mem[c.data].op)
    ensures var t, h := mem[c.data], HandleRequest(alloc, mem, n, c);
      if t.root >= |n.peer| then h == Fault else
      && h.Handled? && h.mem == mem[c.data := Token(t.op, t.root, c.res, c.flags)]
      && h.node == n.(peer := n.peer[t.root := PeerTask(n.peer[t.root].job, false)])
  {}

  /** Every other completion with a token does the one thing its operation is for, and deletes the
      token, which is on the heap; only the token of the multishot accept stays. */
  lemma OtherTokensComplete(alloc: Alloc, mem: Memory, n: Node, c: Cqe)
    requires Dispatch(c).TokenBranch? && c.data in mem && mem[c.data].Token? && !Awaited(mem[c.data].op)
    ensures var t, h, rest := mem[c.data], HandleRequest(alloc, mem, n, c), mem - {c.data};
      match t.op
      case Quit => h == Handled(rest, Node(n.directMap, n.awaiting, true, n.peer, n.submitted))
      case RingFdReceiver =>
        h == Handled(rest, Node(n.directMap[t.res := c.res], n.awaiting, n.stopped, n.peer, n.submitted))
      case MainRingCloseDirectSocket =>
        h == Handled(rest, Node(n.directMap, n.awaiting, n.stopped, n.peer, n.submitted + [CloseDirect(c.res)]))
      case MultishotAcceptFdReceiver =>
        h == Handled(rest, Node(n.directMap, n.awaiting + NonNegative(c.res), n.stopped, n.peer, n.submitted))
      case MultishotAccept =>
        if t.root >= |n.peer| then h == Fault else
        h == Handled(mem, Node(n.directMap, n.awaiting + NonNegative(c.res), n.stopped,
                               n.peer[t.root := PeerTask(n.peer[t.root].job, false)], n.submitted))
      case SyncCloseDirect => h == Handled(rest, n)
      case CancelAny => h == Handled(rest, n)
      case RingTask => h == Handled(rest, n)
      case RingFdSender => h == Handled(rest, n)
      case _ => false
  {}

  /** A completion without user_data does nothing at all. */
  lemma NothingToHandle(alloc: Alloc, mem: Memory, n: Node, c: Cqe)
    requires Dispatch(c).NullBranch?
    ensures HandleRequest(alloc, mem, n, c) == Handled(mem, n)
  {}

  // The slot in a result, if it is one.
  function NonNegative(res: int): seq<int> { if res < 0 then [] else [res] }

  /** A message gives its task loop the task it carries; that of a multishot accept gives it one task
      for each slot that waits, and the i-th task has the i-th slot. Nothing else changes but that
      the message is deleted. */
  lemma MessagesAreTasks(alloc: Alloc, mem: Memory, n: Node, c: Cqe)
    requires c.data in mem && (Dispatch(c).TaskBranch? || Dispatch(c).MultiBranch?)
    ensures var m, h := mem[c.data], HandleRequest(alloc, mem, n, c);
      && (h.Handled? <==> if Dispatch(c).TaskBranch? then m.TaskMessage? else m.MultiMessage?)
      && (h.Handled? ==>
        && h.mem == mem - {c.data} && n.peer <= h.node.peer && h.node.(peer := n.peer) == n
        && |h.node.peer| == |n.peer| + (if m.TaskMessage? then 1 else |n.awaiting|)
        && forall i | |n.peer| <= i < |h.node.peer| ::
             h.node.peer[i] == PeerTask(if m.TaskMessage? then Plain(m.task)
                                        else WithConn(m.func, Accepted(n.awaiting[i - |n.peer|])), false))
  {
    if mem[c.data].MultiMessage? && Dispatch(c).MultiBranch? { TaskOfEachSlot(mem[c.data].func, n.awaiting); }
  }

  lemma {:induction false} TaskOfEachSlot(func: FuncId, slots: seq<int>)
    ensures |ForAccepted(func, slots)| == |slots|
    ensures forall i | 0 <= i < |slots| ::
      ForAccepted(func, slots)[i] == PeerTask(WithConn(func, Accepted(slots[i])), false)
  {
    if slots != [] { TaskOfEachSlot(func, slots[..|slots| - 1]); }
  }

  /** The message of a hand-off gives its task loop the task with its function and a connection of the
      slot that the map has for the main ring's, or 0 if it has none; the entry goes, and a notice of the main ring's
      slot is submitted with a token of its own. */
  lemma HandOffIsATask(alloc: Alloc, mem: Memory, n: Node, c: Cqe)
    requires Dispatch(c).ConnBranch? && c.data in mem && mem[c.data].ConnMessage? && GoodAlloc(alloc)
    ensures var m, h := mem[c.data], HandleRequest(alloc, mem, n, c);
      && h.Handled? && |h.node.submitted| == |n.submitted| + 1
      && var here := if m.slot in n.directMap then n.directMap[m.slot] else 0;
      && var notice := h.node.submitted[|n.submitted|];
      && notice.NotifyMain? && notice.slot == m.slot && notice.token !in mem.Keys - {c.data}
      && h.mem == (mem - {c.data})[notice.token := Token(MainRingCloseDirectSocket, 0, 0, 0)]
      && h.node == Node(n.directMap - {m.slot}, n.awaiting, n.stopped,
                        n.peer + [PeerTask(WithConn(m.func, Conn(here, NO_SLOT, here, false)), false)],
                        n.submitted + [notice])
  {}

  // -- Batches

  // Handling completions one after the other, until a Quit.
  function HandleAll(alloc: Alloc, mem: Memory, n: Node, cs: seq<Cqe>): Handled
    decreases |cs|
  {
    if cs == [] || n.stopped then Handled(mem, n) else
    match HandleRequest(alloc, mem, n, cs[0])
    case Fault => Fault
    case Handled(mem1, n1) => HandleAll(alloc, mem1, n1, cs[1..])
  }

  /** Completions are handled one by one, from the first: what a sequence of them does is what its first
      part does and then, in the state that leaves, the rest. A ring that has stopped does nothing. */
  lemma {:induction false} HandledInParts(alloc: Alloc, mem: Memory, n: Node, cs: seq<Cqe>, ds: seq<Cqe>)
    ensures var first := HandleAll(alloc, mem, n, cs);
      HandleAll(alloc, mem, n, cs + ds)
        == if first.Handled? then HandleAll(alloc, first.mem, first.node, ds) else Fault
    ensures |cs| == 1 ==>
      HandleAll(alloc, mem, n, cs) == if n.stopped then Handled(mem, n) else HandleRequest(alloc, mem, n, cs[0])
    decreases |cs|
  {
    if cs == [] { assert cs + ds == ds; } else if !n.stopped {
      assert (cs + ds)[1..] == cs[1..] + ds;
      var h := HandleRequest(alloc, mem, n, cs[0]);
      if h.Handled? {
        HandledInParts(alloc, h.mem, h.node, cs[1..], ds);
      }
    }
  }

  // The same without the check for a Quit, as when the main ring is shut down.
  function HandleEach(alloc: Alloc, mem: Memory, n: Node, cs: seq<Cqe>): Handled
    decreases |cs|
  {
    if cs == [] then Handled(mem, n) else
    match HandleRequest(alloc, mem, n, cs[0])
    case Fault => Fault
    case Handled(mem1, n1) => HandleEach(alloc, mem1, n1, cs[1..])
  }

  /** The same in parts, and what one completion does, Quit or no Quit before it. */
  lemma {:induction false} EachInParts(alloc: Alloc, mem: Memory, n: Node, cs: seq<Cqe>, ds: seq<Cqe>)
    ensures var first := HandleEach(alloc, mem, n, cs);
      HandleEach(alloc, mem, n, cs + ds)
        == if first.Handled? then HandleEach(alloc, first.mem, first.node, ds) else Fault
    ensures |cs| == 1 ==> HandleEach(alloc, mem, n, cs) == HandleRequest(alloc, mem, n, cs[0])
    decreases |cs|
  {
    if cs == [] { assert cs + ds == ds; } else {
      assert (cs + ds)[1..] == cs[1..] + ds;
      var h := HandleRequest(alloc, mem, n, cs[0]);
      if h.Handled? { EachInParts(alloc, h.mem, h.node, cs[1..], ds); }
    }
  }

  // How many of them are handled.
  function CountHandled(alloc: Alloc, mem: Memory, n: Node, cs: seq<Cqe>): (k: nat)
    ensures k <= |cs|
    decreases |cs|
  {
    if cs == [] || n.stopped then 0 else
    match HandleRequest(alloc, mem, n, cs[0])
    case Fault => 0
    case Handled(mem1, n1) => 1 + CountHandled(alloc, mem1, n1, cs[1..])
  }

  /** Handling each of some completions is handling them up to a Quit, and then those behind it too. */
  lemma {:induction false} EachGoesOnBehindQuit(alloc: Alloc, mem: Memory, n: Node, cs: seq<Cqe>)
    requires HandleAll(alloc, mem, n, cs).Handled?
    ensures var h, k := HandleAll(alloc, mem, n, cs), CountHandled(alloc, mem, n, cs);
      && HandleEach(alloc, mem, n, cs) == HandleEach(alloc, h.mem, h.node, cs[k..])
      && (k < |cs| ==> h.node.stopped)
    decreases |cs|
  {
    if cs != [] && !n.stopped {
      var h1 := HandleRequest(alloc, mem, n, cs[0]);
      EachGoesOnBehindQuit(alloc, h1.mem, h1.node, cs[1..]);
      var k := CountHandled(alloc, h1.mem, h1.node, cs[1..]);
      assert cs[1..][k..] == cs[1 + k..];
    }
  }

  class Uring {
    const alloc: Alloc
    var memory: Memory
    var completions: seq<Cqe>
    var directMap: map<int, int>
    var awaiting: seq<int>
    var stopped: bool
    var peer: seq<PeerTask>
    var submitted: seq<Sqe>
    var cancels: nat  // submissions that cancel everything in flight

    function N(): Node
      reads this
    {
      Node(directMap, awaiting, stopped, peer, submitted)
    }

    // delete, of an object that is there.
    method Delete(a: Addr)
      requires a in memory
      modifies `memory
      ensures memory == old(memory) - {a}
    {
      memory := memory - {a};
    }

    method CloseDirectSocket(slot: int)
      modifies `submitted
      ensures submitted == old(submitted) + [CloseDirect(slot)]
    {
      submitted := submitted + [CloseDirect(slot)];
    }

    method NotifyMainRingReleaseFd(slot: int)
      requires GoodAlloc(alloc)
      modifies `memory, `submitted
      ensures var token := alloc(old(memory).Keys);
        && memory == old(memory)[token := RELEASE_NOTICE]
        && submitted == old(submitted) + [NotifyMain(slot, token)]
    {
      var token := alloc(memory.Keys);
      memory := memory[token := RELEASE_NOTICE];
      submitted := submitted + [NotifyMain(slot, token)];
    }

    method ImplHandleMsgConn(c: Cqe)
      requires GoodAlloc(alloc) && c.data in memory && memory[c.data].ConnMessage?
      modifies this
      ensures completions == old(completions) && cancels == old(cancels)
      ensures Handled(memory, N())
        == HandleConn(alloc, old(memory) - {c.data}, old(N()), old(memory)[c.data].func, old(memory)[c.data].slot)
    {
      var func, slot := memory[c.data].func, memory[c.data].slot;
      Delete(c.data);
      if slot !in directMap { directMap := directMap[slot := 0]; }
      var here := directMap[slot];
      directMap := directMap - {slot};
      var conn := new TcpConnection(NO_SLOT);
      conn.SetSubringSocket(here);
      peer := peer + [PeerTask(WithConn(func, conn.V()), false)];
      assert directMap == old(directMap) - {slot};
      NotifyMainRingReleaseFd(slot);
    }

    method ImplHandleMaccTask(c: Cqe)
      requires c.data in memory && memory[c.data].MultiMessage?
      modifies this
      ensures completions == old(completions) && cancels == old(cancels)
      ensures Dispatch(c).MultiBranch? ==> Handled(memory, N()) == HandleRequest(alloc, old(memory), old(N()), c)
    {
      var func := memory[c.data].func;
      Delete(c.data);
      for i := 0 to |awaiting|
        invariant completions == old(completions) && cancels == old(cancels)
        invariant awaiting == old(awaiting) && directMap == old(directMap)
        invariant peer == old(peer) + ForAccepted(func, awaiting[..i])
        invariant stopped == old(stopped) && submitted == old(submitted) && memory == old(memory) - {c.data}
      {
        peer := peer + [PeerTask(WithConn(func, Accepted(awaiting[i])), false)];
        assert awaiting[..i + 1][..i] == awaiting[..i];
      }
      assert awaiting[..|awaiting|] == awaiting;
    }

    method SetPendingFalse(root: nat)
      requires root < |peer|
      modifies `peer
      ensures peer == old(peer)[root := old(peer)[root].(pending := false)]
    {
      peer := peer[root := peer[root].(pending := false)];
    }

    // One completion. The caller guarantees that its user_data can be used.
    method HandleOne(c: Cqe)
      requires GoodAlloc(alloc) && HandleRequest(alloc, memory, N(), c).Handled?
      modifies this
      ensures completions == old(completions) && cancels == old(cancels)
      ensures Handled(memory, N()) == HandleRequest(alloc, old(memory), old(N()), c)
    {
      if c.res == RING_TASK && HasTaskFlag(c.flags) {
        var task := memory[c.data].task;
        peer := peer + [PeerTask(Plain(task), false)];
        Delete(c.data);
      } else if c.res == RING_FUNC_TASK && HasTaskFlag(c.flags) {
        ImplHandleMsgConn(c);
      } else if c.res == MULTI_ACC_TASK && HasTaskFlag(c.flags) {
        ImplHandleMaccTask(c);
      } else if c.data != NULL {
        HandleTokenOf(c);
      }
    }

    method HandleTokenOf(c: Cqe)
      requires c.data in memory && memory[c.data].Token?
      requires var t := memory[c.data]; HandleToken(memory, N(), c, t.op, t.root, t.res).Handled?
      modifies this
      ensures completions == old(completions) && cancels == old(cancels)
      ensures var t := old(memory)[c.data];
        Handled(memory, N()) == HandleToken(old(memory), old(N()), c, t.op, t.root, t.res)
    {
      var token := memory[c.data];
      if token.op.Quit? {
        stopped := true;
        Delete(c.data);
      } else if token.op in {SyncCloseDirect, CancelAny, RingTask, RingFdSender} {
        Delete(c.data);
      } else if token.op.RingFdReceiver? {
        directMap := directMap[token.res := c.res];
        Delete(c.data);
      } else if token.op.MainRingCloseDirectSocket? {
        CloseDirectSocket(c.res);
        Delete(c.data);
      } else if token.op.MultishotAccept? {
        if c.res >= 0 { awaiting := awaiting + [c.res]; }
        SetPendingFalse(token.root);
      } else if token.op.MultishotAcceptFdReceiver? {
        if c.res >= 0 { awaiting := awaiting + [c.res]; }
        Delete(c.data);
      } else {
        memory := memory[c.data := token.(res := c.res)];
        memory := memory[c.data := token.(res := c.res, flags := c.flags)];
        SetPendingFalse(token.root);
      }
    }

    method Consume(k: nat)
      requires k <= |completions|
      modifies `completions
      ensures completions == old(completions)[k..]
    {
      completions := completions[k..];
    }

    // Uring::process_all: also what comes behind a Quit.
    method ProcessAll()
      requires GoodAlloc(alloc) && HandleEach(alloc, memory, N(), completions).Handled?
      modifies this
      ensures Handled(memory, N()) == HandleEach(alloc, old(memory), old(N()), old(completions))
      ensures completions == [] && cancels == old(cancels)
    {
      var i := 0;
      while i < |completions|
        invariant i <= |completions| && completions == old(completions) && cancels == old(cancels)
        invariant HandleEach(alloc, memory, N(), completions[i..])
          == HandleEach(alloc, old(memory), old(N()), old(completions))
      {
        assert completions[i..][0] == completions[i] && completions[i..][1..] == completions[i + 1..];
        HandleOne(completions[i]);
        i := i + 1;
      }
      Consume(i);
    }

    // Uring::process_batch. `late` is what arrives while a ring that has been stopped waits for its
    // cancellation to complete.
    method ProcessBatch(late: seq<Cqe>) returns (ghost handled: nat)
      requires GoodAlloc(alloc) && late != []
      requires HandleAll(alloc, memory, N(), completions[..Peeked(completions)]).Handled?
      modifies this
      ensures Handled(memory, N()) == HandleAll(alloc, old(memory), old(N()),
        old(completions)[..Peeked(old(completions))])
      ensures handled == CountHandled(alloc, old(memory), old(N()), old(completions)[..Peeked(old(completions))])
      ensures completions == if stopped then [] else old(completions)[Peeked(old(completions))..]
      ensures cancels == old(cancels) + if stopped then 1 else 0
    {
      var completed := if |completions| < BATCH then |completions| else BATCH;
      ghost var cs := completions[..completed];
      var i := 0;
      handled := 0;
      while i < completed && !stopped
        invariant i <= completed && completions == old(completions) && handled == i && cancels == old(cancels)
        invariant HandleAll(alloc, memory, N(), cs[i..]) == HandleAll(alloc, old(memory), old(N()), cs)
        invariant handled + CountHandled(alloc, memory, N(), cs[i..]) == CountHandled(alloc, old(memory), old(N()), cs)
      {
        assert cs[i..][0] == completions[i] && cs[i..][1..] == cs[i + 1..];
        HandleOne(completions[i]);
        i := i + 1;
        handled := i;
      }
      Consume(completed);
      if stopped {
        Consume(|completions|);
        cancels := cancels + 1;
        completions := completions + late;
        Consume(|completions|);
      }
    }
  }

  function Peeked(cs: seq<Cqe>): (k: nat)
    ensures k <= BATCH && k <= |cs| && (k == BATCH || k == |cs|)
  {
    if |cs| < BATCH then |cs| else BATCH
  }
}
