/** Slots that move assignment and release() lose: which they are, and that they stay open for ever. */
module HandoffLeaks {
  import opened Common
  import opened Messages
  import opened Connection
  import opened UringRing
  import opened Handoff
  import opened HandoffInvariant
  import opened HandoffSteps
  import opened HandoffKernel
  import opened HandoffTransfers
  import opened HandoffHandle
  import opened HandoffRuns
  import opened HandoffLives

  ghost predicate LeakedAt(w: World, k: Key) { k in w.past.hold && w.past.hold[k].Leaked? }

  // The connection that is responsible for this slot is assigned over, or released by its holder.
  ghost predicate Loses(l: Label, w: World, k: Key) {
    && k.slot >= 0
    && ((l.LAssign? && l.d in w.conns && Responsible(w.conns[l.d]) == k)
       || (l.LRelease? && l.c in w.conns && Responsible(w.conns[l.c]) == k))
  }

  // A step that loses no slot, and closes none that is lost.
  ghost predicate KeepsLeaks(w: World, w': World) {
    && (forall k {:trigger LeakedAt(w', k)} :: LeakedAt(w', k) <==> LeakedAt(w, k))
    && (forall k {:trigger LeakedAt(w, k)} | LeakedAt(w, k) && w.Open(k) :: w'.Open(k) && w'.SockAt(k) == w.SockAt(k))
  }

  lemma AssignLeaks(w: World, d: ConnId, c: ConnId, k: Key)
    requires Inv(w) && CanAssign(w, d, c)
    ensures var w' := AssignConn(w, d, c);
      && (LeakedAt(w', k) <==> LeakedAt(w, k) || Loses(LAssign(d, c), w, k))
      && (w.Open(k) ==> w'.Open(k) && w'.SockAt(k) == w.SockAt(k))
  {
    if Responsible(w.conns[c]).slot >= 0 { OwnedHome(w, c); }
    OwnersApart(w, c, d);
  }

  lemma ReleaseLeaks(w: World, c: ConnId, k: Key)
    requires Inv(w) && CanRelease(w, c)
    ensures var w' := ReleaseConn(w, c);
      && (LeakedAt(w', k) <==> LeakedAt(w, k) || Loses(LRelease(c), w, k))
      && (w.Open(k) ==> w'.Open(k) && w'.SockAt(k) == w.SockAt(k))
  {
    if Responsible(w.conns[c]).slot >= 0 { OwnedHome(w, c); }
  }

  lemma OwnerLeaks(l: Label, w: World)
    requires Inv(w) && Enabled(l, w) && (l.LMove? || l.LDestroy? || l.LSendConn?)
    ensures KeepsLeaks(w, Apply(l, w))
  {
    if Responsible(w.conns[l.c]).slot >= 0 { OwnedHome(w, l.c); }
  }

  lemma AcceptLeaks(w: World, s: int, k: Sock, c: ConnId)
    requires Inv(w) && CanAccept(w, s, k, c)
    ensures KeepsLeaks(w, AcceptConn(w, s, k, c))
  {
    if Key(0, s) in w.past.hold { HeldIsOpen(w, Key(0, s)); }
  }

  lemma PlainLeaks(l: Label, w: World)
    requires Enabled(l, w) && (l.LSendTask? || l.LCoSpawn? || l.LStartIo? || l.LEndIo? || l.LExecPost?)
    ensures KeepsLeaks(w, Apply(l, w))
  {}

  lemma ExecFdLeaks(w: World, id: OpId, there: int, id2: OpId)
    requires FdReady(w, id, there, id2)
    ensures KeepsLeaks(w, ExecFd(w, id, there, id2))
  {}

  lemma ExecTaskLeaks(w: World, id: OpId)
    requires CanExecTask(w, id)
    ensures KeepsLeaks(w, ExecTask(w, id))
  {}

  lemma ExecCloseLeaks(w: World, id: OpId)
    requires CanExecClose(w, id) && OpOk(w, id, w.ops[id])
    requires w.ops[id].key.slot < 0 ==> w.ops[id].key !in w.past.hold && !w.Open(w.ops[id].key)
    ensures KeepsLeaks(w, ExecClose(w, id))
  {}

  lemma ExecLeaks(l: Label, w: World)
    requires Inv(w) && Enabled(l, w) && (l.LExecFd? || l.LExecTask? || l.LExecClose?)
    ensures KeepsLeaks(w, Apply(l, w))
  {
    match l
    case LExecFd(id, there, id2) =>
      FdReadied(w, id, there, id2);
      ExecFdLeaks(w, id, there, id2);
    case LExecTask(id) => ExecTaskLeaks(w, id);
    case LExecClose(id) =>
      AboutOp(w, id);
      if w.ops[id].key.slot < 0 { NoSlotIsClosed(w, w.ops[id].key); }
      ExecCloseLeaks(w, id);
    case _ =>
  }

  lemma HandleLeaks(w: World, alloc: Alloc, r: nat, id: OpId, c: ConnId)
    requires Inv(w) && CanHandle(w, alloc, r, id, c)
    ensures KeepsLeaks(w, HandleHead(w, alloc, r, id, c))
  {
    HeadIs(w, r);
    var m := w.mem[Data(w, r)];
    if m.TaskMessage? { HandleIsTask(w, alloc, r, id, c); }
    else if m.ConnMessage? {
      LookupIsCorrect(w, r);
      HandleIsConn(w, alloc, r, id, c);
    }
    else { TokenLeaks(w, alloc, r, id, c); }
  }

  lemma TokenLeaks(w: World, alloc: Alloc, r: nat, id: OpId, c: ConnId)
    requires AtHead(w, r) && w.mem[Data(w, r)].Token? && CanHandle(w, alloc, r, id, c)
    ensures KeepsLeaks(w, HandleHead(w, alloc, r, id, c))
  {
    var op := w.mem[Data(w, r)].op;
    if op.RingFdReceiver? { HandleIsFd(w, alloc, r, id, c); }
    else if op in {RingFdSender, RingTask} { HandleIsSender(w, alloc, r, id, c); }
    else if op.MainRingCloseDirectSocket? { HandleIsRelease(w, alloc, r, id, c); }
    else { HandleIsIo(w, alloc, r, id, c); }
  }

  lemma LeakStep(l: Label, w: World, w': World, k: Key)
    requires Inv(w) && Step(l, w, w')
    ensures LeakedAt(w', k) <==> LeakedAt(w, k) || Loses(l, w, k)
    ensures LeakedAt(w', k) ==> w.Open(k) && w'.Open(k) && w'.SockAt(k) == w.SockAt(k)
  {
    if LeakedAt(w, k) { HeldIsOpen(w, k); }
    if l.LAssign? {
      AssignLeaks(w, l.d, l.c, k);
      if Loses(l, w, k) { OwnedHome(w, l.d); }
    } else if l.LRelease? {
      ReleaseLeaks(w, l.c, k);
      if Loses(l, w, k) { OwnedHome(w, l.c); }
    } else {
      OtherLeaks(l, w);
    }
  }

  lemma OtherLeaks(l: Label, w: World)
    requires Inv(w) && Enabled(l, w) && !l.LAssign? && !l.LRelease?
    ensures KeepsLeaks(w, Apply(l, w))
  {
    if l.LAccept? { AcceptLeaks(w, l.s, l.k, l.c); }
    else if l.LMove? || l.LDestroy? || l.LSendConn? { OwnerLeaks(l, w); }
    else if l.LExecFd? || l.LExecTask? || l.LExecClose? { ExecLeaks(l, w); }
    else if l.LHandle? { HandleLeaks(w, l.alloc, l.r, l.id, l.c); }
    else { PlainLeaks(l, w); }
  }

  lemma LeakInRun(ls: seq<Label>, ws: seq<World>, j: nat, k: Key)
    requires IsRun(ls, ws) && j < |ls|
    ensures LeakedAt(ws[j + 1], k) <==> LeakedAt(ws[j], k) || Loses(ls[j], ws[j], k)
    ensures LeakedAt(ws[j + 1], k) ==> ws[j].Open(k) && ws[j + 1].Open(k) && ws[j + 1].SockAt(k) == ws[j].SockAt(k)
  {
    RunIsFull(ls, ws, j);
    assert StepOf(ls, ws, j);
    LeakStep(ls[j], ws[j], ws[j + 1], k);
  }

  ghost predicate Lost(ls: seq<Label>, ws: seq<World>, j: nat, k: Key)
    requires j <= |ls| && |ws| == |ls| + 1
  {
    exists i | 0 <= i < j :: Loses(ls[i], ws[i], k)
  }

  /** A slot is lost exactly when, at some step of the run, the connection that was responsible for it
      was assigned over or released by its holder. A caller avoids the one by assigning only to a
      connection that is responsible for no slot, and the other by leaving release() to
      parallel_spawn. */
  lemma {:induction false} LostIff(ls: seq<Label>, ws: seq<World>, j: nat, k: Key)
    requires IsRun(ls, ws) && j <= |ls|
    ensures LeakedAt(ws[j], k) <==> Lost(ls, ws, j, k)
  {
    if j > 0 {
      LostIff(ls, ws, j - 1, k);
      LeakInRun(ls, ws, j - 1, k);
    }
  }

  /** What is lost stays lost: from the step that loses the slot to the end of the run it is open for
      the same socket, no connection is responsible for it, no close of it is ever asked for, and
      none of its ring has been issued for its socket. */
  lemma LostForEver(ls: seq<Label>, ws: seq<World>, i: nat, j: nat, k: Key)
    requires IsRun(ls, ws) && i < j <= |ls| && Loses(ls[i], ws[i], k)
    ensures ws[i].Open(k) && ws[j].Open(k) && ws[j].SockAt(k) == ws[i].SockAt(k)
    ensures forall c | c in ws[j].conns :: Responsible(ws[j].conns[c]) != k
    ensures forall o | o in ws[j].ops :: ws[j].ops[o] != Close(k)
    ensures ws[j].past.closes[(k.ring, ws[j].SockAt(k))] == 0
  {
    StaysLost(ls, ws, i, j, k);
    RunIsFull(ls, ws, j);
    assert CloseOk(ws[j], k);
    forall c | c in ws[j].conns ensures Responsible(ws[j].conns[c]) != k { assert ConnOk(ws[j], c, ws[j].conns[c]); }
    forall o | o in ws[j].ops ensures ws[j].ops[o] != Close(k) { AboutOp(ws[j], o); }
  }

  lemma {:induction false} StaysLost(ls: seq<Label>, ws: seq<World>, i: nat, j: nat, k: Key)
    requires IsRun(ls, ws) && i < j <= |ls| && Loses(ls[i], ws[i], k)
    ensures LeakedAt(ws[j], k) && ws[i].Open(k) && ws[j].Open(k) && ws[j].SockAt(k) == ws[i].SockAt(k)
    decreases j
  {
    if i < j - 1 { StaysLost(ls, ws, i, j - 1, k); }
    LeakInRun(ls, ws, j - 1, k);
  }

  /** There is such a run: two sockets are accepted, and the connection of the second is assigned to
      the first. */
  lemma AnAssignmentLoses(w: World) returns (ls: seq<Label>, ws: seq<World>)
    requires Initial(w)
    ensures IsRun(ls, ws) && |ls| == 3 && ws[0] == w && Loses(ls[2], ws[2], Key(0, 0))
      && LeakedAt(ws[3], Key(0, 0))
  {
    var l1, l2, l3 := LAccept(0, 0, 0), LAccept(1, 1, 1), LAssign(0, 1);
    var w1 := Apply(l1, w);
    var w2 := Apply(l2, w1);
    var w3 := Apply(l3, w2);
    ls, ws := [l1, l2, l3], [w, w1, w2, w3];
    assert StepOf(ls, ws, 0) && StepOf(ls, ws, 1) && StepOf(ls, ws, 2);
    LostIff(ls, ws, 3, Key(0, 0));
    assert Loses(ls[2], ws[2], Key(0, 0));
  }

  /** And this one: a socket is accepted, and its connection released. */
  lemma AReleaseLoses(w: World) returns (ls: seq<Label>, ws: seq<World>)
    requires Initial(w)
    ensures IsRun(ls, ws) && |ls| == 2 && ws[0] == w && Loses(ls[1], ws[1], Key(0, 0)) && LeakedAt(ws[2], Key(0, 0))
  {
    var l1, l2 := LAccept(0, 0, 0), LRelease(0);
    var w1 := Apply(l1, w);
    var w2 := Apply(l2, w1);
    ls, ws := [l1, l2], [w, w1, w2];
    assert StepOf(ls, ws, 0) && StepOf(ls, ws, 1);
    LostIff(ls, ws, 2, Key(0, 0));
    assert Loses(ls[1], ws[1], Key(0, 0));
  }
}
