/** What the runtime's pointers and tokens look like whenever it is between resumptions. */
module WakeupTheorems {
  import opened Common
  import opened Programs
  import opened Coroutines
  import opened ChainInvariant
  import opened Meaning
  import opened Scheduling

  // Following `caller_` from a frame, at most `n` frames far.
  function Callers(fs: map<Addr, Frame>, a: Addr, n: nat): seq<Addr>
    decreases n
  {
    if n == 0 || a == NULL || a !in fs then [] else [a] + Callers(fs, fs[a].caller, n - 1)
  }

  // `ch` is what following callers from `leaf` gives, however far one goes: it ends, at `bottom`,
  // never meets a frame twice, and every frame on it names root `r`.
  ghost predicate IsChainOf(fs: map<Addr, Frame>, leaf: Addr, ch: seq<Addr>, bottom: Addr, r: int) {
    && ch != [] && ch[|ch| - 1] == bottom
    && (forall n | n >= |ch| :: Callers(fs, leaf, n) == ch)
    && (forall i, j | 0 <= i < j < |ch| :: ch[i] != ch[j])
    && (forall i | 0 <= i < |ch| :: ch[i] in fs && fs[ch[i]].chainTask == r)
    && (forall a | a in fs && fs[a].chainTask == r :: a in ch)
  }

  lemma {:induction false} CallersAlong(fs: map<Addr, Frame>, r: int, ch: seq<Addr>, i: nat, n: nat)
    requires Shape(fs, r, ch) && i < |ch| && n >= |ch| - i
    ensures Callers(fs, ch[i], n) == ch[i..]
    decreases n
  {
    if i + 1 < |ch| { CallersAlong(fs, r, ch, i + 1, n - 1); }
    else { assert Callers(fs, NULL, n - 1) == []; }
  }

  /** Chain shape. Between resumptions, the frames reached from the leaf of a live root through
      `caller_` are a finite chain down to the root's own frame, and they are exactly the frames that
      name this root. */
  lemma ChainShape(code: Code, w: World, r: nat)
    requires Reachable(code, w) && w.s.control.Idle? && r < |w.s.tasks| && w.s.tasks[r].valid
    ensures exists ch :: IsChainOf(w.s.frames, w.s.tasks[r].awaiting, ch, w.s.tasks[r].task, r)
  {
    ReachableInv(code, w);
    assert RootOk(w, r);
    var ch := w.past[r].chain;
    forall n | n >= |ch| ensures Callers(w.s.frames, ch[0], n) == ch { CallersAlong(w.s.frames, r, ch, 0, n); }
    assert IsChainOf(w.s.frames, w.s.tasks[r].awaiting, ch, w.s.tasks[r].task, r);
  }

  /** So following callers from the leaves of two live roots never leads to the same frame. */
  lemma ChainsAreDisjoint(code: Code, w: World, r: nat, q: nat, n: nat, m: nat)
    requires Reachable(code, w) && w.s.control.Idle? && r < |w.s.tasks| && q < |w.s.tasks| && r != q
    requires w.s.tasks[r].valid && w.s.tasks[q].valid
    ensures forall a | a in Callers(w.s.frames, w.s.tasks[r].awaiting, n) ::
      a !in Callers(w.s.frames, w.s.tasks[q].awaiting, m)
  {
    CallersNameTheRoot(code, w, r, n);
    CallersNameTheRoot(code, w, q, m);
  }

  lemma CallersNameTheRoot(code: Code, w: World, r: nat, n: nat)
    requires Reachable(code, w) && w.s.control.Idle? && r < |w.s.tasks| && w.s.tasks[r].valid
    ensures forall a | a in Callers(w.s.frames, w.s.tasks[r].awaiting, n) ::
      a in w.s.frames && w.s.frames[a].chainTask == r
  {
    ChainShape(code, w, r);
    var leaf := w.s.tasks[r].awaiting;
    var ch :| IsChainOf(w.s.frames, leaf, ch, w.s.tasks[r].task, r);
    var far := n + |ch|;
    assert Callers(w.s.frames, leaf, far) == ch;
    CallersPrefix(w.s.frames, leaf, n, far);
  }

  lemma {:induction false} CallersPrefix(fs: map<Addr, Frame>, a: Addr, n: nat, m: nat)
    requires n <= m
    ensures Callers(fs, a, n) <= Callers(fs, a, m)
    decreases n
  {
    if n != 0 && a != NULL && a in fs { CallersPrefix(fs, fs[a].caller, n - 1, m - 1); }
  }

  // A pending root: its leaf holds a token naming it, and that token is on its way, exactly once.
  ghost predicate AwaitsOneToken(s: State, r: nat)
    requires r < |s.tasks|
  {
    var a := s.tasks[r].awaiting;
    && a in s.frames && s.frames[a].point.InIo? && s.frames[a].point.token.chainTask == r
    && Outstanding(s, a) && !(a in s.inflight && InCq(s, a))
    && forall b | Outstanding(s, b) && b in s.frames && s.frames[b].point.InIo?
       && s.frames[b].point.token.chainTask == r :: b == a
  }

  // A token on its way: it is in a frame that still waits, and the root it names is asleep on it.
  ghost predicate WillWake(s: State, a: Addr) {
    && a in s.frames && s.frames[a].point.InIo?
    && var r := s.frames[a].point.token.chainTask;
    0 <= r < |s.tasks| && s.tasks[r].valid && s.tasks[r].pending && s.tasks[r].awaiting == a
  }

  /** Completion and wakeup correspond one to one: no wakeup is lost, none is doubled, none reaches
      a frame that is gone. */
  lemma WakeupCorrespondence(code: Code, w: World)
    requires Reachable(code, w) && w.s.control.Idle?
    ensures forall r | 0 <= r < |w.s.tasks| && w.s.tasks[r].valid && w.s.tasks[r].pending :: AwaitsOneToken(w.s, r)
    ensures forall a | Outstanding(w.s, a) :: WillWake(w.s, a)
    ensures forall i, j | 0 <= i < j < |w.s.queue| :: w.s.queue[i].addr != w.s.queue[j].addr
  {
    ReachableInv(code, w);
    forall a | Outstanding(w.s, a) ensures WillWake(w.s, a) {
      LeafOf(w, a);
      assert RootOk(w, w.s.frames[a].chainTask);
    }
    forall r | 0 <= r < |w.s.tasks| && w.s.tasks[r].valid && w.s.tasks[r].pending ensures AwaitsOneToken(w.s, r) {
      assert RootOk(w, r);
    }
  }

  // Steps of the event loop between two passes: completions arrive and are handled, and messages
  // bring new roots.
  ghost predicate Between(code: Code, w: World, w': World) {
    exists l: Label :: (l.DoHandle? || l.DoComplete? || l.DoEmplace?) && Enabled(l, w) && w' == Apply(code, l, w)
  }

  ghost predicate AllBetween(code: Code, ws: seq<World>) {
    ws != [] && (|ws| > 1 ==> AllBetween(code, ws[..|ws| - 1]) && Between(code, ws[|ws| - 2], ws[|ws| - 1]))
  }

  // The root woken by the completion at the head of the queue.
  function Woken(s: State): int
    requires s.queue != [] && s.queue[0].addr in s.frames
  {
    s.frames[s.queue[0].addr].chainTask
  }

  lemma {:induction false} StaysReady(code: Code, ws: seq<World>, r: nat)
    requires AllBetween(code, ws) && Inv(ws[0]) && r < |ws[0].s.tasks| && Ready(ws[0].s.tasks[r])
      && ws[0].s.control.Idle?
    ensures var w := ws[|ws| - 1]; Inv(w) && r < |w.s.tasks| && Ready(w.s.tasks[r]) && w.s.control.Idle?
  {
    if |ws| > 1 {
      var w, w' := ws[|ws| - 2], ws[|ws| - 1];
      StaysReady(code, ws[..|ws| - 1], r);
      BetweenKeepsReady(code, w, w', r);
    }
  }

  lemma BetweenKeepsReady(code: Code, w: World, w': World, r: nat)
    requires Inv(w) && w.s.control.Idle? && r < |w.s.tasks| && Ready(w.s.tasks[r]) && Between(code, w, w')
    ensures Inv(w') && w'.s.control.Idle? && r < |w'.s.tasks| && Ready(w'.s.tasks[r])
  {
    var l: Label :| (l.DoHandle? || l.DoComplete? || l.DoEmplace?) && Enabled(l, w) && w' == Apply(code, l, w);
    StepKeeps(code, l, w);
    if l.DoHandle? { HandleEffect(w); }
  }

  lemma PassResumesReady(code: Code, w0: World, r: nat, order: seq<nat>, w: World)
    requires Inv(w0) && w0.s.control.Idle? && r < |w0.s.tasks| && Ready(w0.s.tasks[r])
    requires PassTo(Resumes(code), Posts(code), w0, |w.s.tasks|, order, w)
    ensures r in order
  {
    ResumesIsLocal(code);
    PostsIsLocal(code);
    PassKeeps(Resumes(code), Posts(code), x => Inv(x), w0, |w.s.tasks|, order, w);
    ReadyInOrder(w0, r, order, w);
  }

  lemma ReadyInOrder(w0: World, r: nat, order: seq<nat>, w: World)
    requires PassOk(w0, |w.s.tasks|, order, w) && r < |w0.s.tasks| && Ready(w0.s.tasks[r])
    ensures r in order
  {
    ReadyOnly(w0.s.tasks, |w0.s.tasks|);
    assert r in ReadyBelow(w0.s.tasks, |w0.s.tasks|);
  }

  lemma HandleWakes(w: World)
    requires Inv(w) && Enabled(DoHandle, w)
    ensures var s, s' := w.s, Handle(w.s);
      && s.queue[0].addr in s.frames && 0 <= Woken(s) < |s.tasks| == |s'.tasks|
      && s.tasks[Woken(s)].pending && Ready(s'.tasks[Woken(s)]) && s'.control.Idle?
  {
    HandleEffect(w);
    assert RootOk(w, Woken(w.s));
  }

  /** The root that a handled completion wakes was asleep, and the next pass resumes it, whatever
      else is handled before that pass. */
  lemma WokenIsResumed(code: Code, w: World, later: seq<World>, order: seq<nat>, w': World)
    requires Reachable(code, w) && Enabled(DoHandle, w)
    requires AllBetween(code, later) && later[0] == Apply(code, DoHandle, w)
    requires PassTo(Resumes(code), Posts(code), later[|later| - 1], |w'.s.tasks|, order, w')
    ensures w.s.queue[0].addr in w.s.frames && 0 <= Woken(w.s) < |w.s.tasks|
    ensures w.s.tasks[Woken(w.s)].pending && Woken(w.s) in order
  {
    ReachableInv(code, w);
    HandleWakes(w);
    HandleKeeps(w);
    StaysReady(code, later, Woken(w.s));
    PassResumesReady(code, later[|later| - 1], Woken(w.s), order, w');
  }

  // -- Completions from the kernel to the program

  ghost predicate StepAt(code: Code, ls: seq<Label>, ws: seq<World>, i: nat)
    requires i < |ls| && |ws| == |ls| + 1
  {
    Enabled(ls[i], ws[i]) && ws[i + 1] == Apply(code, ls[i], ws[i])
  }

  ghost predicate LabelledRun(code: Code, ls: seq<Label>, ws: seq<World>) {
    |ws| == |ls| + 1 && ws[0] == INIT
    && forall i {:trigger StepAt(code, ls, ws, i)} | 0 <= i < |ls| :: StepAt(code, ls, ws, i)
  }

  // What the kernel has posted, and how many completions have been handled.
  function PostedIn(ls: seq<Label>): seq<Cqe> {
    if ls == [] then [] else
    var l := ls[|ls| - 1];
    PostedIn(ls[..|ls| - 1]) + if l.DoComplete? then [Cqe(l.addr, l.with)] else []
  }

  function HandledIn(ls: seq<Label>): nat {
    if ls == [] then 0 else HandledIn(ls[..|ls| - 1]) + if ls[|ls| - 1].DoHandle? then 1 else 0
  }

  lemma WorkLeavesQueue(code: Code, w: World, a: Addr)
    requires Inv(w) && Enabled(DoWork(a), w) && !Apply(code, DoWork(a), w).s.control.Terminated?
    ensures Apply(code, DoWork(a), w).s.queue == w.s.queue
  {
    LeafIsRunning(w, w.s.control.root, w.s.control.frame, w.past[w.s.control.root]);
    WorkOnTasks(code, w, a);
  }

  lemma {:induction false} ReachesEach(code: Code, ls: seq<Label>, ws: seq<World>, i: nat)
    requires LabelledRun(code, ls, ws) && i <= |ls|
    ensures Reachable(code, ws[i])
  {
    if i == 0 { ReachesInit(code); } else {
      ReachesEach(code, ls, ws, i - 1);
      assert StepAt(code, ls, ws, i - 1);
      ReachesNext(code, ws[i - 1], ws[i]);
    }
  }

  /** Whatever the program does, the completions in the queue are those the kernel has posted and that
      have not been handled, in the order of posting; so the next to be handled is the oldest. */
  lemma {:induction false} CompletionsInOrder(code: Code, ls: seq<Label>, ws: seq<World>, i: nat)
    requires LabelledRun(code, ls, ws) && i <= |ls| && (ws[i].s.control.Idle? || ws[i].s.control.Running?)
    ensures HandledIn(ls[..i]) <= |PostedIn(ls[..i])|
    ensures ws[i].s.queue == PostedIn(ls[..i])[HandledIn(ls[..i])..]
  {
    if i > 0 {
      var w, l := ws[i - 1], ls[i - 1];
      assert StepAt(code, ls, ws, i - 1);
      ReachesEach(code, ls, ws, i - 1);
      ReachableInv(code, w);
      CompletionsInOrder(code, ls, ws, i - 1);
      assert ls[..i][..i - 1] == ls[..i - 1];
      match l
      case DoWork(a) => WorkLeavesQueue(code, w, a);
      case DoHandle => HandleEffect(w);
      case _ =>
    }
  }
}
