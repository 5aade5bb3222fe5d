/** From wherever a run of the hand-off protocol has come to, the kernel and the rings can finish what
    has been submitted and queued. */
module HandoffDrain {
  import opened Common
  import opened Messages
  import opened Connection
  import opened UringRing
  import opened Handoff
  import opened HandoffInvariant
  import opened HandoffSteps
  import opened HandoffKernel
  import opened HandoffTransfers
  import opened HandoffHandle
  import opened HandoffRuns
  import opened HandoffLives
  import opened HandoffTheorems

  // Only the kernel carries out submissions, and rings handle completions.
  predicate Finishing(l: Label) { l.LExecFd? || l.LExecTask? || l.LExecPost? || l.LExecClose? || l.LHandle? }

  // What there is to finish: each such step takes something away from the first of these that it
  // changes at all.
  ghost function Chains(w: World): set<OpId> { set id | id in w.ops && w.ops[id].Link? }
  ghost function Tasks(w: World): set<OpId> { set id | id in w.ops && w.ops[id].LinkTask? }
  ghost function Helpers(w: World): set<Addr> { set a | a in w.mem && w.mem[a].ConnMessage? }
  ghost function Postings(w: World): set<OpId> { set id | id in w.ops && w.ops[id].Post? }
  ghost function LeftQueued(rings: seq<Ring>): nat {
    if rings == [] then 0 else LeftQueued(rings[..|rings| - 1]) + |rings[|rings| - 1].cq|
  }
  ghost function Closes(w: World): set<OpId> { set id | id in w.ops && w.ops[id].Close? }

  ghost predicate Less(w': World, w: World) {
    if Chains(w') != Chains(w) then Chains(w') < Chains(w)
    else if Tasks(w') != Tasks(w) then Tasks(w') < Tasks(w)
    else if Helpers(w') != Helpers(w) then Helpers(w') < Helpers(w)
    else if Postings(w') != Postings(w) then Postings(w') < Postings(w)
    else if LeftQueued(w'.rings) != LeftQueued(w.rings) then LeftQueued(w'.rings) < LeftQueued(w.rings)
    else Closes(w') < Closes(w)
  }

  lemma {:induction false} LeftPops(rings: seq<Ring>, r: nat, ring: Ring)
    requires r < |rings| && |ring.cq| + 1 == |rings[r].cq|
    ensures LeftQueued(rings[r := ring]) + 1 == LeftQueued(rings)
    decreases |rings|
  {
    var last := |rings| - 1;
    if r < last {
      assert rings[r := ring][..last] == rings[..last][r := ring];
      LeftPops(rings[..last], r, ring);
    } else {
      assert rings[r := ring][..last] == rings[..last];
    }
  }

  lemma {:induction false} LeftSame(rings: seq<Ring>, r: nat, ring: Ring)
    requires r < |rings| && |ring.cq| == |rings[r].cq|
    ensures LeftQueued(rings[r := ring]) == LeftQueued(rings)
    decreases |rings|
  {
    var last := |rings| - 1;
    if r < last {
      assert rings[r := ring][..last] == rings[..last][r := ring];
      LeftSame(rings[..last], r, ring);
    } else {
      assert rings[r := ring][..last] == rings[..last];
    }
  }

  // -- Each step takes something away

  lemma FdFinishes(w: World, id: OpId, there: int, id2: OpId)
    requires CanExecFd(w, id, there, id2)
    ensures Less(ExecFd(w, id, there, id2), w)
  {
    assert id in Chains(w) && id !in Chains(ExecFd(w, id, there, id2));
    assert Chains(ExecFd(w, id, there, id2)) == Chains(w) - {id};
  }

  lemma TaskFinishes(w: World, id: OpId)
    requires CanExecTask(w, id)
    ensures Less(ExecTask(w, id), w)
  {
    var w' := ExecTask(w, id);
    assert id in Tasks(w);
    assert Chains(w') == Chains(w) && Tasks(w') == Tasks(w) - {id};
  }

  lemma PostFinishes(w: World, id: OpId)
    requires CanExecPost(w, id)
    ensures Less(ExecPost(w, id), w)
  {
    var w' := ExecPost(w, id);
    assert id in Postings(w);
    assert Chains(w') == Chains(w) && Tasks(w') == Tasks(w) && Helpers(w') == Helpers(w)
      && Postings(w') == Postings(w) - {id};
  }

  lemma CloseFinishes(w: World, id: OpId)
    requires CanExecClose(w, id)
    ensures Less(ExecClose(w, id), w)
  {
    var w', key := ExecClose(w, id), w.ops[id].key;
    assert id in Closes(w);
    assert Chains(w') == Chains(w) && Tasks(w') == Tasks(w) && Helpers(w') == Helpers(w) && Postings(w') == Postings(w);
    LeftSame(w.rings, key.ring, w'.rings[key.ring]);
    assert Closes(w') == Closes(w) - {id};
  }

  // The head of a queue goes, and with it perhaps a helper; at most a close or a notice is submitted.
  lemma PopFinishes(w: World, w': World, r: nat)
    requires r < |w.rings| == |w'.rings| && w.rings[r].cq != [] && w'.rings == w.rings[r := w'.rings[r]]
      && w'.rings[r].cq == w.rings[r].cq[1..]
    requires Chains(w') == Chains(w) && Tasks(w') == Tasks(w) && Helpers(w') == Helpers(w)
      && Postings(w') == Postings(w)
    ensures Less(w', w)
  {
    LeftPops(w.rings, r, w'.rings[r]);
  }

  lemma ConnFinishes(w: World, r: nat, notice: Addr, id: OpId, c: ConnId)
    requires ConnAtHead(w, r) && FreshNames(w, r, notice, id, c)
    ensures Less(ConnDone(w, r, notice, id, c), w)
  {
    var w', a := ConnDone(w, r, notice, id, c), Data(w, r);
    assert Chains(w') == Chains(w) && Tasks(w') == Tasks(w);
    assert a in Helpers(w) && Helpers(w') == Helpers(w) - {a};
  }

  lemma TokenFinishes(w: World, alloc: Alloc, r: nat, id: OpId, c: ConnId)
    requires AtHead(w, r) && !w.mem[Data(w, r)].ConnMessage? && CanHandle(w, alloc, r, id, c)
    ensures Less(HandleHead(w, alloc, r, id, c), w)
  {
    var m := w.mem[Data(w, r)];
    if m.TaskMessage? { HandleIsTask(w, alloc, r, id, c); }
    else if m.op.RingFdReceiver? { HandleIsFd(w, alloc, r, id, c); }
    else if m.op in {RingFdSender, RingTask} { HandleIsSender(w, alloc, r, id, c); }
    else if m.op.MainRingCloseDirectSocket? { HandleIsRelease(w, alloc, r, id, c); }
    else { HandleIsIo(w, alloc, r, id, c); }
    PopFinishes(w, HandleHead(w, alloc, r, id, c), r);
  }

  lemma HandleFinishes(w: World, alloc: Alloc, r: nat, id: OpId, c: ConnId)
    requires Inv(w) && GoodAlloc(alloc) && CanHandle(w, alloc, r, id, c)
    ensures Less(HandleHead(w, alloc, r, id, c), w)
  {
    HeadIs(w, r);
    if w.mem[Data(w, r)].ConnMessage? {
      LookupIsCorrect(w, r);
      HandleIsConn(w, alloc, r, id, c);
      ConnFinishes(w, r, alloc(w.mem.Keys - {Data(w, r)}), id, c);
    } else {
      TokenFinishes(w, alloc, r, id, c);
    }
  }

  // -- Some step is possible until all is drained

  ghost function FirstUnused(used: set<Addr>): (a: Addr)
    ensures a !in used && a != NULL
  {
    SomeUnused(used);
    var a: Addr :| a !in used && a != NULL;
    a
  }

  lemma SomeUnused(used: set<Addr>)
    ensures exists a: Addr :: a !in used && a != NULL
  {
    var a := Unused(used);
  }

  lemma SomeOpExecutes(w: World, id: OpId) returns (l: Label, w': World)
    requires Inv(w) && id in w.ops
    ensures Finishing(l) && Step(l, w, w') && Less(w', w)
  {
    AboutOp(w, id);
    match w.ops[id]
    case Link(target, slot, _, _, _) =>
      HeldIsOpen(w, Key(0, slot));
      var there := Unused(w.rings[target].table.Keys);
      var id2 := Unused(w.ops.Keys);
      l, w' := LExecFd(id, there, id2), ExecFd(w, id, there, id2);
      FdFinishes(w, id, there, id2);
    case LinkTask(target, helper) =>
      HeldIsOpen(w, Key(0, w.mem[helper].slot));
      l, w' := LExecTask(id), ExecTask(w, id);
      TaskFinishes(w, id);
    case Post(_, _) =>
      l, w' := LExecPost(id), ExecPost(w, id);
      PostFinishes(w, id);
    case Close(_) =>
      l, w' := LExecClose(id), ExecClose(w, id);
      CloseFinishes(w, id);
  }

  lemma HeadIsHandled(w: World, r: nat) returns (l: Label, w': World)
    requires Inv(w) && r < |w.rings| && w.rings[r].cq != []
    ensures Finishing(l) && Step(l, w, w') && Less(w', w)
  {
    var alloc: Alloc := used => FirstUnused(used);
    var id := Unused(w.ops.Keys);
    var c := Unused(w.conns.Keys);
    HandlingNeverFails(w, alloc, r, id, c);
    l, w' := LHandle(alloc, r, id, c), HandleHead(w, alloc, r, id, c);
    HandleFinishes(w, alloc, r, id, c);
  }

  lemma SomethingFinishes(w: World) returns (l: Label, w': World)
    requires Inv(w) && !Drained(w)
    ensures Finishing(l) && Step(l, w, w') && Less(w', w)
  {
    if w.ops != map[] {
      var id :| id in w.ops;
      l, w' := SomeOpExecutes(w, id);
    } else {
      var r :| 0 <= r < |w.rings| && w.rings[r].cq != [];
      l, w' := HeadIsHandled(w, r);
    }
  }

  /** Every run can be carried on, by steps of the kernel and of handling only, to a state in which all
      is drained: no message is ever stuck. What is true there MessageConservation says. */
  lemma {:induction false} CanAlwaysDrain(ls: seq<Label>, ws: seq<World>) returns (ls': seq<Label>, ws': seq<World>)
    requires IsRun(ls, ws)
    ensures IsRun(ls', ws') && ls <= ls' && ws <= ws' && Drained(ws'[|ls'|])
    ensures forall i | |ls| <= i < |ls'| :: Finishing(ls'[i])
    decreases Chains(ws[|ls|]), Tasks(ws[|ls|]), Helpers(ws[|ls|]), Postings(ws[|ls|]), LeftQueued(ws[|ls|].rings),
      Closes(ws[|ls|])
  {
    if Drained(ws[|ls|]) {
      ls', ws' := ls, ws;
    } else {
      RunIsFull(ls, ws, |ls|);
      var l, w' := SomethingFinishes(ws[|ls|]);
      RunGoesOn(ls, ws, l, w');
      ls', ws' := CanAlwaysDrain(ls + [l], ws + [w']);
      forall i | |ls| <= i < |ls'| ensures Finishing(ls'[i]) {
        if i == |ls| { assert ls'[i] == (ls + [l])[i]; }
      }
    }
  }

  lemma RunGoesOn(ls: seq<Label>, ws: seq<World>, l: Label, w: World)
    requires IsRun(ls, ws) && Step(l, ws[|ls|], w)
    ensures IsRun(ls + [l], ws + [w])
  {
    var ls', ws' := ls + [l], ws + [w];
    forall i | 0 <= i < |ls'| ensures StepOf(ls', ws', i) {
      if i < |ls| { assert StepOf(ls, ws, i); }
    }
  }
}
