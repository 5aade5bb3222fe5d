/** The event loops: batches of completions handled in the order they arrived. */
module EventLoop {
  import opened Common
  import opened Messages
  import opened UringRing

  // -- Handling a sequence of completions

  /** If the ring is not stopped, all have been handled. */
  lemma {:induction false} AllHandled(alloc: Alloc, mem: Memory, n: Node, cs: seq<Cqe>)
    requires HandleAll(alloc, mem, n, cs).Handled? && !HandleAll(alloc, mem, n, cs).node.stopped
    ensures CountHandled(alloc, mem, n, cs) == |cs|
    decreases |cs|
  {
    if cs != [] && !n.stopped {
      var h := HandleRequest(alloc, mem, n, cs[0]);
      AllHandled(alloc, h.mem, h.node, cs[1..]);
    }
  }

  ghost predicate IsQuit(mem: Memory, a: Addr) { a in mem && mem[a].Token? && mem[a].op.Quit? }

  lemma RequestQuits(alloc: Alloc, mem: Memory, n: Node, c: Cqe)
    requires HandleRequest(alloc, mem, n, c).Handled?
    ensures var h := HandleRequest(alloc, mem, n, c);
      && (forall a | IsQuit(h.mem, a) :: IsQuit(mem, a))
      && (h.node.stopped <==> n.stopped || (Dispatch(c).TokenBranch? && IsQuit(mem, c.data)))
  {}

  /** If the ring is stopped, it was by the last completion handled, a Quit: what came after it has
      changed nothing. */
  lemma {:induction false} StoppedByQuit(alloc: Alloc, mem: Memory, n: Node, cs: seq<Cqe>)
    requires !n.stopped && HandleAll(alloc, mem, n, cs).Handled? && HandleAll(alloc, mem, n, cs).node.stopped
    ensures var k := CountHandled(alloc, mem, n, cs);
      && 0 < k <= |cs| && HandleAll(alloc, mem, n, cs) == HandleAll(alloc, mem, n, cs[..k])
      && Dispatch(cs[k - 1]).TokenBranch?
      && var before := HandleAll(alloc, mem, n, cs[..k - 1]);
      && before.Handled? && !before.node.stopped && IsQuit(before.mem, cs[k - 1].data)
      && HandleAll(alloc, mem, n, cs) == Handled(before.mem - {cs[k - 1].data}, before.node.(stopped := true))
    decreases |cs|
  {
    var h := HandleRequest(alloc, mem, n, cs[0]);
    RequestQuits(alloc, mem, n, cs[0]);
    var k := CountHandled(alloc, mem, n, cs);
    assert cs[..k][0] == cs[0] && cs[..k][1..] == cs[1..][..k - 1];
    if h.node.stopped {
      assert HandleAll(alloc, h.mem, h.node, cs[1..]) == h;
      assert cs[..0] == [];
    } else {
      StoppedByQuit(alloc, h.mem, h.node, cs[1..]);
      assert cs[..k - 1][0] == cs[0] && cs[..k - 1][1..] == cs[1..][..k - 2];
      assert cs[1..][k - 2] == cs[k - 1];
    }
  }

  /** Handling makes no Quit token, and stops a ring only if there is one. */
  lemma {:induction false} AllQuits(alloc: Alloc, mem: Memory, n: Node, cs: seq<Cqe>)
    requires HandleAll(alloc, mem, n, cs).Handled?
    ensures var h := HandleAll(alloc, mem, n, cs);
      (forall a | IsQuit(h.mem, a) :: IsQuit(mem, a)) && (h.node.stopped && !n.stopped ==> exists a :: IsQuit(mem, a))
    decreases |cs|
  {
    if cs != [] && !n.stopped {
      var h := HandleRequest(alloc, mem, n, cs[0]);
      RequestQuits(alloc, mem, n, cs[0]);
      AllQuits(alloc, h.mem, h.node, cs[1..]);
    }
  }

  // -- One ring's loop

  // `handled` and `arrived` are the history of its completions.
  datatype Loop = Loop(mem: Memory, node: Node, queue: seq<Cqe>, handled: seq<Cqe>, arrived: seq<Cqe>)

  datatype Label =
    | LArrive(c: Cqe)
    | LBatch(alloc: Alloc)
    | LProgram(mem: Memory, node: Node)  // anything else the program does

  ghost predicate Enabled(l: Label, s: Loop) {
    match l
    case LArrive(_) => true
    case LBatch(alloc) => HandleAll(alloc, s.mem, s.node, s.queue[..Peeked(s.queue)]).Handled?
    case LProgram(_, node) => node.stopped == s.node.stopped
  }

  function Apply(l: Label, s: Loop): Loop {
    match l
    case LArrive(c) => s.(queue := s.queue + [c], arrived := s.arrived + [c])
    case LBatch(alloc) => Batched(alloc, s)
    case LProgram(mem, node) => s.(mem := mem, node := node)
  }

  // process_batch
  function Batched(alloc: Alloc, s: Loop): Loop {
    var cs := s.queue[..Peeked(s.queue)];
    match HandleAll(alloc, s.mem, s.node, cs)
    case Fault => s
    case Handled(mem, node) =>
      Loop(mem, node, if node.stopped then [] else s.queue[Peeked(s.queue)..],
           s.handled + cs[..CountHandled(alloc, s.mem, s.node, cs)], s.arrived)
  }

  ghost predicate IsRun(ls: seq<Label>, ss: seq<Loop>) {
    && |ss| == |ls| + 1 && ss[0].queue == ss[0].handled == ss[0].arrived == []
    && forall i {:trigger StepOf(ls, ss, i)} | 0 <= i < |ls| :: StepOf(ls, ss, i)
  }

  ghost predicate StepOf(ls: seq<Label>, ss: seq<Loop>, i: nat)
    requires i < |ls| && |ss| == |ls| + 1
  {
    Enabled(ls[i], ss[i]) && ss[i + 1] == Apply(ls[i], ss[i])
  }

  lemma StaysStopped(alloc: Alloc, s: Loop)
    requires s.node.stopped
    ensures Batched(alloc, s).node.stopped && Batched(alloc, s).handled == s.handled
  {
    var cs := s.queue[..Peeked(s.queue)];
    assert cs[..0] == [];
  }

  // The completions that have arrived.
  function ArrivedIn(ls: seq<Label>): seq<Cqe> {
    if ls == [] then [] else
    var l := ls[|ls| - 1];
    ArrivedIn(ls[..|ls| - 1]) + if l.LArrive? then [l.c] else []
  }

  /** Completions are handled in the order they arrived, none twice; and until a Quit none is lost. */
  lemma {:induction false} InOrderExactlyOnce(ls: seq<Label>, ss: seq<Loop>, i: nat)
    requires IsRun(ls, ss) && i <= |ls|
    ensures ss[i].arrived == ArrivedIn(ls[..i]) && ss[i].handled <= ArrivedIn(ls[..i])
    ensures !ss[i].node.stopped ==> ss[i].handled + ss[i].queue == ArrivedIn(ls[..i])
  {
    if i > 0 {
      InOrderExactlyOnce(ls, ss, i - 1);
      assert StepOf(ls, ss, i - 1);
      assert ls[..i][..i - 1] == ls[..i - 1];
      var s := ss[i - 1];
      match ls[i - 1]
      case LArrive(c) => assert s.handled + (s.queue + [c]) == (s.handled + s.queue) + [c];
      case LBatch(alloc) => if s.node.stopped { StaysStopped(alloc, s); } else { BatchInOrder(alloc, s); }
      case LProgram(_, _) =>
    }
  }

  lemma BatchInOrder(alloc: Alloc, s: Loop)
    requires !s.node.stopped && Enabled(LBatch(alloc), s)
    ensures var s' := Batched(alloc, s);
      && (!s'.node.stopped ==>
         s'.handled + s'.queue == s.handled + s.queue && |s'.handled| == |s.handled| + Peeked(s.queue))
      && s'.handled <= s.handled + s.queue
  {
    var cs := s.queue[..Peeked(s.queue)];
    assert s.queue == cs + s.queue[Peeked(s.queue)..];
    if !Batched(alloc, s).node.stopped {
      AllHandled(alloc, s.mem, s.node, cs);
      assert cs[..|cs|] == cs;
    }
  }

  /** What a batch does to memory and ring is what handling the completions it counts as handled does, at
      most 256 of them. */
  lemma EffectOfBatch(ls: seq<Label>, ss: seq<Loop>, i: nat)
    requires IsRun(ls, ss) && i < |ls| && ls[i].LBatch?
    ensures ss[i].handled <= ss[i + 1].handled && |ss[i + 1].handled| <= |ss[i].handled| + 256
    ensures var done := ss[i + 1].handled[|ss[i].handled|..];
      Handled(ss[i + 1].mem, ss[i + 1].node) == HandleAll(ls[i].alloc, ss[i].mem, ss[i].node, done)
  {
    assert StepOf(ls, ss, i);
    var s, alloc := ss[i], ls[i].alloc;
    var cs := s.queue[..Peeked(s.queue)];
    var k := CountHandled(alloc, s.mem, s.node, cs);
    assert ss[i + 1].handled[|s.handled|..] == cs[..k];
    if s.node.stopped { assert cs[..0] == []; }
    else if ss[i + 1].node.stopped { StoppedByQuit(alloc, s.mem, s.node, cs); }
    else {
      AllHandled(alloc, s.mem, s.node, cs);
      assert cs[..|cs|] == cs;
    }
  }

  function Batches(ls: seq<Label>): nat {
    if ls == [] then 0 else Batches(ls[..|ls| - 1]) + if ls[|ls| - 1].LBatch? then 1 else 0
  }

  // The least that the batches of a stretch of a run handle.
  lemma {:induction false} BatchesHandle(ls: seq<Label>, ss: seq<Loop>, i: nat, j: nat)
    requires IsRun(ls, ss) && i <= j <= |ls| && !ss[j].node.stopped
    ensures !ss[i].node.stopped
    ensures |ss[j].handled| >= |ss[i].handled| + |ss[i].queue|
      || |ss[j].handled| >= |ss[i].handled| + BATCH * Batches(ls[i..j])
    ensures ss[i].arrived <= ss[j].arrived
    decreases j
  {
    if i < j {
      var s := ss[j - 1];
      assert StepOf(ls, ss, j - 1);
      if s.node.stopped && ls[j - 1].LBatch? { StaysStopped(ls[j - 1].alloc, s); }
      BatchesHandle(ls, ss, i, j - 1);
      assert ls[i..j][..j - i - 1] == ls[i..j - 1];
      InOrderExactlyOnce(ls, ss, i);
      InOrderExactlyOnce(ls, ss, j - 1);
      if ls[j - 1].LBatch? { BatchInOrder(ls[j - 1].alloc, s); }
    }
  }

  /** The completion at position `p` of the queue, from 0, has been handled after p/256 + 1 batches,
      unless a Quit came first. */
  lemma BoundedProgress(ls: seq<Label>, ss: seq<Loop>, i: nat, j: nat, p: nat)
    requires IsRun(ls, ss) && i <= j <= |ls| && !ss[j].node.stopped
    requires p < |ss[i].queue| && Batches(ls[i..j]) >= p / BATCH + 1
    ensures |ss[j].handled| > |ss[i].handled| + p && ss[j].handled[|ss[i].handled| + p] == ss[i].queue[p]
  {
    BatchesHandle(ls, ss, i, j);
    InOrderExactlyOnce(ls, ss, i);
    InOrderExactlyOnce(ls, ss, j);
    assert (ss[i].handled + ss[i].queue)[|ss[i].handled| + p] == ss[i].queue[p];
  }
}

/** Shutdown: the main ring's terminate() and the workers' loops. */
module Shutdown {
  import opened Common
  import opened Messages
  import opened UringRing
  import opened EventLoop

  // Where a worker is in an iteration of its loop, and where the main thread is in terminate().
  datatype Pc = AtTasks | AtBatch | AtCheck | Left
  datatype MainPc = Running | Stopping(next: nat) | Notifying(next: nat) | Done

  datatype Worker = Worker(pc: Pc, node: Node, queue: seq<Cqe>, stopRequested: bool)

  // `quits` are Quit messages the kernel has not posted, with the worker each is for.
  datatype World = World(mem: Memory, workers: seq<Worker>, main: MainPc, quits: set<(nat, Addr)>)

  datatype Label =
    | Terminate
    | RequestStop
    | Notify(token: Addr)
    | PostQuit(worker: nat, token: Addr)
    | Post(worker: nat, c: Cqe)               // any other completion
    | Program(mem: Memory)                    // other rings' and the main thread's work
    | Tasks(worker: nat, mem: Memory, node: Node)
    | Batch(worker: nat, alloc: Alloc)
    | Check(worker: nat)

  ghost predicate NoNewQuit(mem: Memory, mem': Memory) { forall a | IsQuit(mem', a) :: IsQuit(mem, a) }

  ghost predicate CanDo(l: Label, w: World) {
    match l
    case Terminate => true
    case RequestStop => w.main.Stopping? && w.main.next <= |w.workers|
    case Notify(token) => w.main.Notifying? && w.main.next <= |w.workers| && token !in w.mem && token != NULL
    case PostQuit(worker, token) => (worker, token) in w.quits && worker < |w.workers|
    case Post(worker, _) => worker < |w.workers|
    case Program(mem) => NoNewQuit(w.mem, mem)
    case Tasks(i, mem, node) => i < |w.workers| && w.workers[i].pc.AtTasks? && NoNewQuit(w.mem, mem)
      && node.stopped == w.workers[i].node.stopped
    case Batch(i, alloc) =>
      && i < |w.workers| && w.workers[i].pc.AtBatch?
      && HandleAll(alloc, w.mem, w.workers[i].node, w.workers[i].queue[..Peeked(w.workers[i].queue)]).Handled?
    case Check(i) => i < |w.workers| && w.workers[i].pc.AtCheck?
  }

  function With(w: World, i: nat, x: Worker): World
    requires i < |w.workers|
  {
    w.(workers := w.workers[i := x])
  }

  ghost function Do(l: Label, w: World): World
    requires CanDo(l, w)
  {
    match l
    case Terminate => if w.main.Running? then w.(main := Stopping(0)) else w
    case RequestStop =>
      var i := w.main.next;
      if i == |w.workers| then w.(main := Notifying(0))
      else With(w, i, w.workers[i].(stopRequested := true)).(main := Stopping(i + 1))
    case Notify(token) =>
      var i := w.main.next;
      if i == |w.workers| then w.(main := Done)
      else w.(mem := w.mem[token := Token(Quit, 0, -38, 0)], quits := w.quits + {(i, token)}, main := Notifying(i + 1))
    case PostQuit(i, token) =>
      With(w, i, w.workers[i].(queue := w.workers[i].queue + [Entry(PlainMessage(0, token))]))
        .(quits := w.quits - {(i, token)})
    case Post(i, c) => With(w, i, w.workers[i].(queue := w.workers[i].queue + [c]))
    case Program(mem) => w.(mem := mem)
    case Tasks(i, mem, node) => With(w, i, w.workers[i].(pc := AtBatch, node := node)).(mem := mem)
    case Batch(i, alloc) =>
      var x := w.workers[i];
      var s := Batched(alloc, Loop(w.mem, x.node, x.queue, [], []));
      With(w, i, x.(pc := AtCheck, node := s.node, queue := s.queue)).(mem := s.mem)
    case Check(i) =>
      With(w, i, w.workers[i].(pc := if w.workers[i].stopRequested then Left else AtTasks))
  }

  ghost predicate Start(w: World) {
    && w.main == Running && w.quits == {} && (forall a :: !IsQuit(w.mem, a))
    && forall i | 0 <= i < |w.workers| ::
       w.workers[i].pc.AtTasks? && !w.workers[i].node.stopped && w.workers[i].queue == []
  }

  ghost predicate StepOf(ls: seq<Label>, ws: seq<World>, i: nat)
    requires i < |ls| && |ws| == |ls| + 1
  {
    CanDo(ls[i], ws[i]) && ws[i + 1] == Do(ls[i], ws[i])
  }

  ghost predicate IsRun(ls: seq<Label>, ws: seq<World>) {
    |ws| == |ls| + 1 && Start(ws[0]) && forall i {:trigger StepOf(ls, ws, i)} | 0 <= i < |ls| :: StepOf(ls, ws, i)
  }

  // A stop has been requested of every worker before the first Quit token is made; a stopped ring is
  // one whose worker is about to leave.
  ghost predicate WorkerOk(w: World, i: nat)
    requires i < |w.workers|
  {
    && (w.main.Stopping? && i < w.main.next ==> w.workers[i].stopRequested)
    && (w.main.Notifying? || w.main.Done? ==> w.workers[i].stopRequested)
    && (w.workers[i].pc.Left? ==> w.workers[i].stopRequested)
    && (w.workers[i].node.stopped ==> w.workers[i].stopRequested && (w.workers[i].pc.AtCheck? || w.workers[i].pc.Left?))
  }

  ghost predicate Inv(w: World) {
    && ((exists a :: IsQuit(w.mem, a)) ==> w.main.Notifying? || w.main.Done?)
    && forall i {:trigger WorkerOk(w, i)} | 0 <= i < |w.workers| :: WorkerOk(w, i)
  }

  lemma BatchKeeps(w: World, i: nat, alloc: Alloc)
    requires Inv(w) && CanDo(Batch(i, alloc), w)
    ensures Inv(Do(Batch(i, alloc), w))
  {
    var w', x := Do(Batch(i, alloc), w), w.workers[i];
    AllQuits(alloc, w.mem, x.node, x.queue[..Peeked(x.queue)]);
    assert WorkerOk(w, i);
    forall j | 0 <= j < |w.workers| ensures WorkerOk(w', j) { assert WorkerOk(w, j); }
  }

  lemma StepKeeps(l: Label, w: World)
    requires Inv(w) && CanDo(l, w)
    ensures Inv(Do(l, w))
  {
    if l.Batch? { BatchKeeps(w, l.worker, l.alloc); } else {
      var w' := Do(l, w);
      forall j | 0 <= j < |w.workers| ensures WorkerOk(w', j) { assert WorkerOk(w, j); }
    }
  }

  lemma {:induction false} RunKeeps(ls: seq<Label>, ws: seq<World>, i: nat)
    requires IsRun(ls, ws) && i <= |ls|
    ensures Inv(ws[i])
  {
    if i > 0 {
      RunKeeps(ls, ws, i - 1);
      assert StepOf(ls, ws, i - 1);
      StepKeeps(ls[i - 1], ws[i - 1]);
    }
  }

  /** A worker that handles Quit leaves its loop at the end of that iteration: its next step is the
      check, and the check ends the loop. */
  lemma QuitEndsTheIteration(ls: seq<Label>, ws: seq<World>, i: nat, worker: nat)
    requires IsRun(ls, ws) && i <= |ls| && worker < |ws[i].workers| && ws[i].workers[worker].node.stopped
    ensures ws[i].workers[worker].pc.AtCheck? || ws[i].workers[worker].pc.Left?
    ensures i < |ls| && ls[i] == Check(worker) ==> worker < |ws[i + 1].workers| && ws[i + 1].workers[worker].pc == Left
  {
    RunKeeps(ls, ws, i);
    assert WorkerOk(ws[i], worker);
    if i < |ls| { assert StepOf(ls, ws, i); }
  }

  /** A worker leaves its loop at a check, and exactly when its stop has been requested; else it goes round
      again. So it never leaves without a request. */
  lemma LeavesIffRequested(ls: seq<Label>, ws: seq<World>, i: nat, worker: nat)
    requires IsRun(ls, ws) && i < |ls| && worker < |ws[i].workers|
    ensures worker < |ws[i + 1].workers|
    ensures ls[i] == Check(worker) ==>
      ws[i + 1].workers[worker].pc == if ws[i].workers[worker].stopRequested then Left else AtTasks
    ensures ws[i + 1].workers[worker].pc == Left ==>
      ws[i].workers[worker].stopRequested && (ws[i].workers[worker].pc == Left || ls[i] == Check(worker))
  {
    RunKeeps(ls, ws, i);
    assert WorkerOk(ws[i], worker);
    assert StepOf(ls, ws, i);
  }

  /** A worker goes through its tasks, a batch and the check in turn, and no other step moves it on. */
  lemma WorkersGoRound(ls: seq<Label>, ws: seq<World>, i: nat, worker: nat)
    requires IsRun(ls, ws) && i < |ls| && worker < |ws[i].workers| == |ws[i + 1].workers|
    ensures var before, after := ws[i].workers[worker].pc, ws[i + 1].workers[worker].pc;
      match ls[i]
      case Tasks(q, _, _) => if q == worker then before == AtTasks && after == AtBatch else after == before
      case Batch(q, _) => if q == worker then before == AtBatch && after == AtCheck else after == before
      case Check(q) => if q == worker then before == AtCheck && after in {AtTasks, Left} else after == before
      case _ => after == before
  {
    assert StepOf(ls, ws, i);
  }

  /** When the main thread has sent the Quit of a worker, it is under way to that worker, or has been posted
      there. */
  lemma {:induction false} QuitsAreSent(ls: seq<Label>, ws: seq<World>, i: nat, worker: nat)
    requires IsRun(ls, ws) && i <= |ls| && worker < |ws[i].workers|
    requires (ws[i].main.Notifying? && worker < ws[i].main.next) || ws[i].main.Done?
    ensures (exists token :: (worker, token) in ws[i].quits) || QuitPosted(ls, i, worker)
  {
    assert StepOf(ls, ws, i - 1);
    RunKeeps(ls, ws, i - 1);
    var w, l := ws[i - 1], ls[i - 1];
    if l.Notify? && w.main.next == worker {
      assert (worker, l.token) in ws[i].quits;
    } else {
      NotifiedRange(ls, ws, i - 1);
      QuitsAreSent(ls, ws, i - 1, worker);
      if QuitPosted(ls, i - 1, worker) {
        var j :| 0 <= j < i - 1 && ls[j].PostQuit? && ls[j].worker == worker;
        assert ls[j].PostQuit? && ls[j].worker == worker;
      } else {
        var token :| (worker, token) in w.quits;
        if l == PostQuit(worker, token) { assert ls[i - 1].PostQuit?; } else { assert (worker, token) in ws[i].quits; }
      }
    }
  }

  /** What has been sent is a Quit, made for that worker, at an address that held nothing. */
  lemma QuitTokenIsMade(ls: seq<Label>, ws: seq<World>, i: nat)
    requires IsRun(ls, ws) && i < |ls| && ls[i].Notify? && ws[i].main.Notifying? && ws[i].main.next < |ws[i].workers|
    ensures var token, worker := ls[i].token, ws[i].main.next;
      && token !in ws[i].mem && ws[i + 1].mem == ws[i].mem[token := Token(Quit, 0, -38, 0)]
      && IsQuit(ws[i + 1].mem, token) && ws[i + 1].quits == ws[i].quits + {(worker, token)}
  {
    assert StepOf(ls, ws, i);
  }

  ghost predicate QuitPosted(ls: seq<Label>, i: nat, worker: nat)
    requires i <= |ls|
  {
    exists j :: 0 <= j < i && ls[j].PostQuit? && ls[j].worker == worker
  }

  lemma {:induction false} NotifiedRange(ls: seq<Label>, ws: seq<World>, i: nat)
    requires IsRun(ls, ws) && i <= |ls|
    ensures |ws[i].workers| == |ws[0].workers|
    ensures ws[i].main.Notifying? || ws[i].main.Stopping? ==> ws[i].main.next <= |ws[i].workers|
  {
    if i > 0 {
      NotifiedRange(ls, ws, i - 1);
      assert StepOf(ls, ws, i - 1);
    }
  }

  /** And posting it puts it behind whatever is in that worker's queue, and into no other. */
  lemma QuitReachesItsWorker(ls: seq<Label>, ws: seq<World>, i: nat)
    requires IsRun(ls, ws) && i < |ls| && ls[i].PostQuit?
    ensures |ws[i + 1].workers| == |ws[i].workers|
    ensures var entry := [Cqe(0, 0, ls[i].token)];
      forall q | 0 <= q < |ws[i].workers| ::
        ws[i + 1].workers[q].queue == ws[i].workers[q].queue + if q == ls[i].worker then entry else []
  {
    assert StepOf(ls, ws, i);
  }

  /** Once a worker has handled Quit its ring and its tasks stay as they are to the end of the run. */
  lemma {:induction false} NothingAfterQuit(ls: seq<Label>, ws: seq<World>, i: nat, j: nat, worker: nat)
    requires IsRun(ls, ws) && i <= j <= |ls| && worker < |ws[i].workers| && ws[i].workers[worker].node.stopped
    ensures worker < |ws[j].workers| && ws[j].workers[worker].node == ws[i].workers[worker].node
    decreases j
  {
    if i < j {
      NothingAfterQuit(ls, ws, i, j - 1, worker);
      RunKeeps(ls, ws, j - 1);
      assert WorkerOk(ws[j - 1], worker);
      assert StepOf(ls, ws, j - 1);
    }
  }

  /** The batch that handles Quit adds no task for what is queued behind it. */
  lemma QuitCutsTheBatch(ls: seq<Label>, ws: seq<World>, i: nat, worker: nat)
    requires IsRun(ls, ws) && i < |ls| && ls[i].Batch? && ls[i].worker == worker
      && worker < |ws[i].workers| == |ws[i + 1].workers|
    requires ws[i + 1].workers[worker].node.stopped
    ensures var x, cs := ws[i].workers[worker], ws[i].workers[worker].queue[..Peeked(ws[i].workers[worker].queue)];
      && var k := CountHandled(ls[i].alloc, ws[i].mem, x.node, cs);
      && 0 < k <= |cs|
      && var before := HandleAll(ls[i].alloc, ws[i].mem, x.node, cs[..k - 1]);
      && before.Handled? && IsQuit(before.mem, cs[k - 1].data)
         && ws[i + 1].workers[worker].node == before.node.(stopped := true)
  {
    RunKeeps(ls, ws, i);
    assert WorkerOk(ws[i], worker);
    assert StepOf(ls, ws, i);
    var x := ws[i].workers[worker];
    StoppedByQuit(ls[i].alloc, ws[i].mem, x.node, x.queue[..Peeked(x.queue)]);
  }

  /** Terminating a second time has no effect. */
  lemma SecondTerminate(ls: seq<Label>, ws: seq<World>, i: nat, j: nat)
    requires IsRun(ls, ws) && i < j < |ls| && ls[i].Terminate? && ls[j].Terminate?
    ensures ws[j + 1] == ws[j]
  {
    NotRunningAgain(ls, ws, i, j);
    assert StepOf(ls, ws, j);
  }

  lemma {:induction false} NotRunningAgain(ls: seq<Label>, ws: seq<World>, i: nat, j: nat)
    requires IsRun(ls, ws) && i < j <= |ls| && ls[i].Terminate?
    ensures !ws[j].main.Running?
    decreases j
  {
    assert StepOf(ls, ws, j - 1);
    if i < j - 1 { NotRunningAgain(ls, ws, i, j - 1); }
  }
}
