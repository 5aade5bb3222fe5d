/** Invariants of whole runs of the hand-off protocol. */
module HandoffRuns {
  import opened Messages
  import opened Connection
  import opened UringRing
  import opened Handoff
  import opened HandoffInvariant
  import opened HandoffFrame
  import opened HandoffOthers
  import opened HandoffSteps
  import opened HandoffKernel
  import opened HandoffTransfers
  import opened HandoffHandle

  lemma InvStep(l: Label, w: World, w': World)
    requires Inv(w) && Step(l, w, w')
    ensures Inv(w')
  {
    match l
    case LAccept(s, k, c) => AcceptKeeps(w, s, k, c);
    case LMove(c, to) => MoveKeeps(w, c, to);
    case LAssign(d, c) => AssignKeeps(w, d, c);
    case LRelease(c) => ReleaseKeeps(w, c);
    case LDestroy(c, id) => DestroyKeeps(w, c, id);
    case LSendConn(c, target, func, n) => SendConnKeeps(w, c, target, func, n);
    case LSendTask(t, target, msg, token, id, id2) => SendTaskKeeps(w, t, target, msg, token, id, id2);
    case LCoSpawn(r) => CoSpawnKeeps(w, r);
    case LStartIo(r, op, root, a, id, res, flags) => StartIoKeeps(w, r, op, root, a, id, res, flags);
    case LEndIo(a) => EndIoKeeps(w, a);
    case LExecFd(id, there, id2) => ExecFdKeeps(w, id, there, id2);
    case LExecTask(id) => ExecTaskKeeps(w, id);
    case LExecPost(id) => ExecPostKeeps(w, id);
    case LExecClose(id) => ExecCloseKeeps(w, id);
    case LHandle(alloc, r, id, c) => HandleKeeps(w, alloc, r, id, c);
  }

  lemma InvInitially(w: World)
    requires Initial(w)
    ensures Inv(w)
  {
    forall r | 0 <= r < |w.rings| ensures QueueOk(w, r) {}
  }

  // -- Live sockets

  // A socket's connection, or its transfer, holds an open slot for it.
  ghost predicate Live(w: World, k: Sock)
    requires k in w.past.home
  {
    var key := w.past.home[k];
    w.Open(key) && w.SockAt(key) == k && key in w.past.hold && (w.past.hold[key].OwnedBy? || w.past.hold[key].Sending?)
  }

  ghost predicate LivesOk(w: World) {
    forall k {:trigger Live(w, k)} | k in w.past.home && k !in w.past.dead :: Live(w, k)
  }

  // -- Closes

  ghost predicate CloseOk(w: World, key: Key) {
    w.Open(key) && key in w.past.hold ==>
      w.past.closes[(key.ring, w.SockAt(key))] == if w.past.hold[key].Closing? then 1 else 0
  }

  ghost predicate CountOk(w: World, r: nat, k: Sock) {
    && w.past.closes[(r, k)] <= 1
    && (w.past.closes[(r, k)] > 0 ==> k in w.past.home && (r >= 1 ==> k in w.past.dead))
  }

  ghost predicate ClosesOk(w: World) {
    (forall key {:trigger CloseOk(w, key)} :: CloseOk(w, key))
      && (forall r, k {:trigger CountOk(w, r, k)} :: CountOk(w, r, k))
  }

  // -- Remote spawns

  function Copies(peer: seq<PeerTask>, t: TaskId): nat {
    if peer == [] then 0 else Copies(peer[..|peer| - 1], t) + if peer[|peer| - 1].job == Plain(t) then 1 else 0
  }

  // Task `t` is on the ring it was sent to once its message has been handled, and nowhere else;
  // until then the message is still there.
  ghost predicate SpawnOk(w: World, t: TaskId) {
    && (forall r | 0 <= r < |w.rings| ::
          Copies(w.rings[r].node.peer, t) == if t in w.past.arrived && t in w.past.spawned
            && w.past.spawned[t].ring == r then 1 else 0)
    && (t in w.past.spawned && t !in w.past.arrived ==>
       w.past.spawned[t].msg in w.mem && w.mem[w.past.spawned[t].msg] == TaskMessage(t))
  }

  ghost predicate SpawnsOk(w: World) { forall t {:trigger SpawnOk(w, t)} :: SpawnOk(w, t) }

  ghost predicate Full(w: World) { Inv(w) && LivesOk(w) && ClosesOk(w) && SpawnsOk(w) }

  lemma NoCopies(peer: seq<PeerTask>, t: TaskId)
    requires forall i | 0 <= i < |peer| :: peer[i].job.Local?
    ensures Copies(peer, t) == 0
  {}

  lemma {:induction false} CopiesUpdate(peer: seq<PeerTask>, i: nat, p: PeerTask, t: TaskId)
    requires i < |peer| && p.job == peer[i].job
    ensures Copies(peer[i := p], t) == Copies(peer, t)
  {
    var last := |peer| - 1;
    if i < last {
      assert peer[i := p][..last] == peer[..last][i := p];
      CopiesUpdate(peer[..last], i, p, t);
    } else {
      assert peer[i := p][..last] == peer[..last];
    }
  }

  lemma CopiesAppend(peer: seq<PeerTask>, p: PeerTask, t: TaskId)
    ensures Copies(peer + [p], t) == Copies(peer, t) + if p.job == Plain(t) then 1 else 0
  {
    assert (peer + [p])[..|peer|] == peer;
  }
}
