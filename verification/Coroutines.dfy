/** The coroutine runtime of one ring: coroutine frames in memory, the scheduled tasks that own the
    chains, completions on their way, and the transfer of control between them. */
module Coroutines {
  import opened Common
  import opened Programs

  const NO_TASK := -1
  const ENOSYS := 38

  // The completion token, embedded in the awaiter and therefore in the awaiting coroutine's frame.
  datatype Token = Token(chainTask: int, with: Completion)

  const NEW_TOKEN := Token(NO_TASK, Completion(-ENOSYS, 0))

  // Where a coroutine stands. `Final` is final suspend, the promise holding a result or an exception.
  datatype Point =
    | Body(at: Local)
    | InTask(callee: Addr, onJoin: Outcome -> Local)
    | InIo(token: Token, onDone: Completion -> Local)
    | Final(outcome: Outcome)

  datatype Frame = Frame(point: Point, caller: Addr, chainTask: int)
  datatype ScheduledTask = ScheduledTask(task: Addr, awaiting: Addr, valid: bool, pending: bool)
  datatype Cqe = Cqe(addr: Addr, with: Completion)

  // `Running` names the scheduled task whose resume() is on the stack and the frame in control.
  // `Terminated` is std::terminate; `Fault` is any use of a frame the language leaves undefined.
  datatype Control = Idle | Running(root: nat, frame: Addr) | Terminated | Fault

  datatype State = State(
    frames: map<Addr, Frame>,
    tasks: seq<ScheduledTask>,
    control: Control,
    inflight: set<Addr>,
    queue: seq<Cqe>)
  {
    predicate Fresh(a: Addr) { a != NULL && a !in frames }
    function Fails(): State { this.(control := Fault) }
    function Moved(a: Addr, p: Point): State
      requires a in frames
    {
      this.(frames := frames[a := frames[a].(point := p)])
    }
  }

  // Calling a coroutine function: the new frame is suspended at its start, with no links.
  function Call(s: State, a: Addr, c: Local): State {
    s.(frames := s.frames[a := Frame(Body(c), NULL, NO_TASK)])
  }

  // co_await of a task: link the callee to its caller and to the caller's root, and run the callee.
  function TaskSuspend(s: State, r: nat, caller: Addr, callee: Addr, k: Outcome -> Local): State
    requires caller in s.frames && callee in s.frames && caller != callee
  {
    var s1 := s.Moved(caller, InTask(callee, k));
    s1.(frames := s1.frames[callee := s1.frames[callee].(caller := caller, chainTask := s1.frames[caller].chainTask)],
        control := Running(r, callee))
  }

  // The awaited task's outcome reaches its caller; the temporary task then destroys the callee.
  function TaskResume(s: State, r: nat, caller: Addr): State {
    if caller !in s.frames || !s.frames[caller].point.InTask? then s.Fails() else
    var callee, k := s.frames[caller].point.callee, s.frames[caller].point.onJoin;
    if callee == caller || callee !in s.frames || !s.frames[callee].point.Final? then s.Fails() else
    var s1 := s.Moved(caller, Body(k(s.frames[callee].point.outcome)));
    s1.(frames := s1.frames - {callee}, control := Running(r, caller))
  }

  // Final suspend: symmetric transfer to the caller, or back to resume() when there is none.
  function FinalSuspend(s: State, r: nat, f: Addr, o: Outcome): State
    requires f in s.frames && r < |s.tasks|
  {
    var ended := s.Moved(f, Final(o));
    if s.frames[f].caller != NULL then TaskResume(ended, r, s.frames[f].caller)
    else if o.Raised? then ended.(control := Terminated)
    else BackInResume(ended, r)
  }

  // co_await of an I/O awaiter: the token names the root, the root names this frame and is pending.
  function IoSuspend(s: State, r: nat, f: Addr, k: Completion -> Local): State
    requires f in s.frames && r < |s.tasks|
  {
    var root := s.frames[f].chainTask;
    if !(0 <= root < |s.tasks|) then s.Fails() else
    var s1 := s.Moved(f, InIo(NEW_TOKEN.(chainTask := root), k)).(
      tasks := s.tasks[root := s.tasks[root].(awaiting := f, pending := true)],
      inflight := s.inflight + {f});
    BackInResume(s1, r)
  }

  // The end of ScheduledTask::resume.
  function BackInResume(s: State, r: nat): State
    requires r < |s.tasks|
  {
    var t := s.tasks[r];
    if t.task !in s.frames then s.Fails() else
    s.(control := Idle, tasks := s.tasks[r := t.(valid := t.valid && !s.frames[t.task].point.Final?)])
  }

  // TaskLoop::emplace_back: a new root, which is its own leaf.
  function Emplace(s: State, a: Addr, c: Local): State {
    var s1 := Call(s, a, c);
    s1.(frames := s1.frames[a := s1.frames[a].(chainTask := |s.tasks|)],
        tasks := s.tasks + [ScheduledTask(a, a, true, false)])
  }

  // What the frame in control does up to its next transfer of control. `a` is the address a new
  // frame would get.
  function Work(code: Code, s: State, a: Addr): State
    requires s.control.Running? && s.control.root < |s.tasks| && s.Fresh(a)
  {
    var r, f := s.control.root, s.control.frame;
    if f !in s.frames then s.Fails() else
    match s.frames[f].point
    case Final(_) => s.Fails()
    case InTask(_, _) => s.Fails()
    case InIo(token, k) => s.Moved(f, Body(k(token.with)))
    case Body(c) =>
      match code(c)
      case Return(v) => FinalSuspend(s, r, f, Returned(v))
      case Throw(e) => FinalSuspend(s, r, f, Raised(e))
      case Await(callee, k) => TaskSuspend(Call(s, a, callee), r, f, a, k)
      case Io(req, k) => IoSuspend(s, r, f, k)
      case Spawn(child, next) => Emplace(s.Moved(f, Body(next)), a, child)
  }

  function Resume(s: State, r: nat): State
    requires r < |s.tasks|
  {
    s.(control := Running(r, s.tasks[r].awaiting))
  }

  // The kernel posts a completion for an operation in flight.
  function Complete(s: State, a: Addr, x: Completion): State {
    s.(inflight := s.inflight - {a}, queue := s.queue + [Cqe(a, x)])
  }

  // The default branch of Uring::handle_request, for the completion at the head of the queue.
  function Handle(s: State): State
    requires s.queue != []
  {
    var a, x := s.queue[0].addr, s.queue[0].with;
    if a !in s.frames || !s.frames[a].point.InIo? then s.Fails() else
    var p := s.frames[a].point;
    var root := p.token.chainTask;
    if !(0 <= root < |s.tasks|) then s.Fails() else
    s.Moved(a, p.(token := p.token.(with := x))).(
      tasks := s.tasks[root := s.tasks[root].(pending := false)],
      queue := s.queue[1..])
  }

  // What `Work` shows: requests issued, completions read, outcomes delivered, tasks spawned.
  function Shown(code: Code, s: State): seq<Event> {
    if !s.control.Running? || s.control.frame !in s.frames then [] else
    var f := s.frames[s.control.frame];
    match f.point
    case InIo(token, _) => [Completed(token.with)]
    case Body(c) => (
      match code(c)
      case Return(v) => if f.caller == NULL then [] else [Joined(Returned(v))]
      case Throw(e) => if f.caller == NULL then [] else [Joined(Raised(e))]
      case Await(_, _) => []
      case Io(req, _) => [Issued(req)]
      case Spawn(child, _) => [Spawned(child)])
    case _ => []
  }

  /** What has happened to a root so far. History only: no transition of `State` looks at it. */
  datatype Past = Past(
    start: Local,               // the body it was created with
    chain: seq<Addr>,           // its frames, leaf first
    handled: seq<Completion>,   // completions handled for its tokens
    got: seq<Completion>,       // completions its awaiters have read
    log: seq<Event>,            // everything it has shown
    steps: nat)

  datatype World = World(s: State, past: seq<Past>)

  datatype Label =
    | DoWork(at: Addr)
    | DoResume(r: nat)
    | DoEmplace(at: Addr, c: Local)
    | DoComplete(addr: Addr, with: Completion)
    | DoHandle

  function NewPast(c: Local, a: Addr): Past { Past(c, [a], [], [], [], 0) }

  function ChainAfter(code: Code, s: State, a: Addr, chain: seq<Addr>): seq<Addr> {
    if chain == [] || !s.control.Running? || s.control.frame !in s.frames then chain else
    var f := s.frames[s.control.frame];
    if !f.point.Body? then chain else
    match code(f.point.at)
    case Await(_, _) => [a] + chain
    case Return(_) => if f.caller == NULL then chain else chain[1..]
    case Throw(_) => if f.caller == NULL then chain else chain[1..]
    case _ => chain
  }

  // One transition of the runtime with its history.
  predicate Enabled(l: Label, w: World) {
    match l
    case DoWork(a) => w.s.control.Running? && w.s.control.root < |w.s.tasks| == |w.past| && w.s.Fresh(a)
    case DoResume(r) => w.s.control.Idle? && r < |w.s.tasks| && w.s.tasks[r].valid && !w.s.tasks[r].pending
    case DoEmplace(a, c) => w.s.control.Idle? && w.s.Fresh(a)
    case DoComplete(a, x) => a in w.s.inflight && (w.s.control.Idle? || w.s.control.Running?)
    case DoHandle => w.s.control.Idle? && w.s.queue != []
  }

  function Apply(code: Code, l: Label, w: World): World
    requires Enabled(l, w)
  {
    match l
    case DoWork(a) => World(Work(code, w.s, a), WorkPast(code, w, a))
    case DoResume(r) => w.(s := Resume(w.s, r))
    case DoEmplace(a, c) => World(Emplace(w.s, a, c), w.past + [NewPast(c, a)])
    case DoComplete(a, x) => w.(s := Complete(w.s, a, x))
    case DoHandle => World(Handle(w.s), HandlePast(w))
  }

  function WorkPast(code: Code, w: World, a: Addr): seq<Past>
    requires Enabled(DoWork(a), w)
  {
    var s, r := w.s, w.s.control.root;
    var p := w.past[r];
    var shown := Shown(code, s);
    var p' := p.(chain := ChainAfter(code, s, a, p.chain), log := p.log + shown, steps := p.steps + 1,
                 got := if |shown| == 1 && shown[0].Completed? then p.got + [shown[0].with] else p.got);
    w.past[r := p'] + (if |shown| == 1 && shown[0].Spawned? then [NewPast(shown[0].child, a)] else [])
  }

  function HandlePast(w: World): seq<Past>
    requires w.s.queue != []
  {
    var a, x := w.s.queue[0].addr, w.s.queue[0].with;
    if a !in w.s.frames || !(0 <= w.s.frames[a].chainTask < |w.past|) then w.past else
    var r := w.s.frames[a].chainTask;
    w.past[r := w.past[r].(handled := w.past[r].handled + [x])]
  }

  const INIT := World(State(map[], [], Idle, {}, []), [])

  ghost predicate Step(code: Code, w: World, w': World) {
    exists l :: Enabled(l, w) && w' == Apply(code, l, w)
  }

  /** What a ring can come to, from an empty one: block_on and the messages of other rings emplace
      the first roots; from there any transition that is enabled may come next. */
  ghost predicate Reachable(code: Code, w: World) { exists ws :: IsRun(code, ws) && ws[|ws| - 1] == w }

  ghost predicate IsRun(code: Code, ws: seq<World>) {
    && ws != []
    && if |ws| == 1 then ws[0] == INIT
       else IsRun(code, ws[..|ws| - 1]) && Step(code, ws[|ws| - 2], ws[|ws| - 1])
  }

  lemma ReachesNext(code: Code, w: World, w': World)
    requires Reachable(code, w) && Step(code, w, w')
    ensures Reachable(code, w')
  {
    var ws :| IsRun(code, ws) && ws[|ws| - 1] == w;
    var ws' := ws + [w'];
    assert ws'[..|ws'| - 1] == ws;
    assert IsRun(code, ws');
  }

  lemma ReachesInit(code: Code)
    ensures Reachable(code, INIT)
  {
    assert IsRun(code, [INIT]);
  }
}

module ChainInvariant {
  import opened Common
  import opened Programs
  import opened Coroutines

  ghost predicate Shape(fs: map<Addr, Frame>, r: int, ch: seq<Addr>) {
    && ch != []
    && (forall i | 0 <= i < |ch| :: ch[i] != NULL && ch[i] in fs && fs[ch[i]].chainTask == r)
    && (forall i, j | 0 <= i < j < |ch| :: ch[i] != ch[j])
    && (forall i | 0 <= i < |ch| - 1 :: fs[ch[i]].caller == ch[i + 1])
    && (forall i | 0 < i < |ch| :: fs[ch[i]].point.InTask? && fs[ch[i]].point.callee == ch[i - 1])
    && fs[ch[|ch| - 1]].caller == NULL
    && !fs[ch[0]].point.InTask?
    && (fs[ch[0]].point.Final? ==> |ch| == 1)
  }

  ghost predicate InCq(s: State, a: Addr) { exists i | 0 <= i < |s.queue| :: s.queue[i].addr == a }
  ghost predicate Outstanding(s: State, a: Addr) { a in s.inflight || InCq(s, a) }

  // A root that is not running: fresh, waiting for its completion, woken by it, or finished.
  ghost predicate Parked(s: State, t: ScheduledTask, r: int, p: Past)
    requires Shape(s.frames, r, p.chain)
  {
    var ch := p.chain;
    match s.frames[ch[0]].point
    case Body(c) => p == NewPast(c, ch[0]) && t.valid && !t.pending && t.awaiting == ch[0]
    case InIo(token, _) =>
      t.valid && t.awaiting == ch[0] && token.chainTask == r && (t.pending <==> Outstanding(s, ch[0]))
    case Final(o) => !t.valid && o.Returned?
    case InTask(_, _) => false
  }

  ghost predicate RootOk(w: World, r: nat)
    requires r < |w.s.tasks| == |w.past|
  {
    var s, p, t := w.s, w.past[r], w.s.tasks[r];
    && Shape(s.frames, r, p.chain)
    && t.task == p.chain[|p.chain| - 1]
    && (if s.control.Running? && s.control.root == r then
          && s.control.frame == p.chain[0] && t.valid && !t.pending
          && !s.frames[p.chain[0]].point.Final? && !Outstanding(s, p.chain[0])
        else Parked(s, t, r, p))
    && p.handled == p.got + Unread(s, p.chain[0])
  }

  // A completion handled for the leaf of a chain but not yet read by it.
  ghost function Unread(s: State, leaf: Addr): seq<Completion>
    requires leaf in s.frames
  {
    if s.frames[leaf].point.InIo? && !Outstanding(s, leaf) then [s.frames[leaf].point.token.with] else []
  }

  ghost predicate QueueOk(s: State) {
    && (forall i, j | 0 <= i < j < |s.queue| :: s.queue[i].addr != s.queue[j].addr)
    && (forall a | a in s.inflight :: !InCq(s, a))
    && (forall a | Outstanding(s, a) :: a in s.frames && s.frames[a].point.InIo?)
  }

  ghost predicate Covered(w: World) {
    forall a | a in w.s.frames :: 0 <= w.s.frames[a].chainTask < |w.past| && a in w.past[w.s.frames[a].chainTask].chain
  }

  ghost predicate Inv(w: World) {
    && !w.s.control.Fault?
    && (w.s.control.Idle? || w.s.control.Running? ==>
      && |w.s.tasks| == |w.past|
      && (w.s.control.Running? ==> w.s.control.root < |w.past|)
      && (forall r {:trigger RootOk(w, r)} | 0 <= r < |w.past| :: RootOk(w, r))
      && Covered(w)
      && QueueOk(w.s))
  }

  // A root is untouched by a transition that leaves its frames, task and history alone.
  lemma RootFrame(w: World, w': World, q: nat)
    requires q < |w.s.tasks| == |w.past| && q < |w'.s.tasks| == |w'.past| && RootOk(w, q)
    requires w'.s.tasks[q] == w.s.tasks[q] && w'.past[q] == w.past[q]
    requires forall a | a in w.past[q].chain :: a in w'.s.frames && w'.s.frames[a] == w.s.frames[a]
    requires Outstanding(w'.s, w.past[q].chain[0]) <==> Outstanding(w.s, w.past[q].chain[0])
    requires if w.s.control.Running? && w.s.control.root == q then w'.s.control == w.s.control
             else !(w'.s.control.Running? && w'.s.control.root == q)
    ensures RootOk(w', q)
  {
    var ch := w.past[q].chain;
    assert forall i | 0 <= i < |ch| :: ch[i] in w'.s.frames && w'.s.frames[ch[i]] == w.s.frames[ch[i]];
  }

  lemma CompleteKeeps(w: World, a: Addr, x: Completion)
    requires Inv(w) && Enabled(DoComplete(a, x), w)
    ensures Inv(w.(s := Complete(w.s, a, x)))
  {
    var s' := Complete(w.s, a, x);
    forall b ensures Outstanding(s', b) <==> Outstanding(w.s, b) {
      if InCq(w.s, b) { var i :| 0 <= i < |w.s.queue| && w.s.queue[i].addr == b; assert s'.queue[i].addr == b; }
      assert s'.queue[|w.s.queue|].addr == a;
    }
    forall r | 0 <= r < |w.past| ensures RootOk(w.(s := s'), r) { assert RootOk(w, r); }
  }

  // Handling a completion writes the token of a pending leaf and wakes the root that leaf belongs to.
  lemma HandleEffect(w: World)
    requires Inv(w) && Enabled(DoHandle, w)
    ensures var s, s', a, x := w.s, Handle(w.s), w.s.queue[0].addr, w.s.queue[0].with;
      && a in s.frames && s.frames[a].point.InIo? && 0 <= s.frames[a].chainTask < |w.past|
      && var root, p := s.frames[a].chainTask, s.frames[a].point;
      && w.past[root].chain[0] == a && p.token.chainTask == root && s.tasks[root].pending
      && s' == s.(frames := s.frames[a := s.frames[a].(point := p.(token := p.token.(with := x)))],
                  tasks := s.tasks[root := s.tasks[root].(pending := false)], queue := s.queue[1..])
      && forall b :: Outstanding(s', b) <==> Outstanding(s, b) && b != a
  {
    var s, s' := w.s, Handle(w.s);
    var a := s.queue[0].addr;
    assert Outstanding(s, a);
    LeafOf(w, a);
    assert RootOk(w, s.frames[a].chainTask);
    assert s'.queue == s.queue[1..];
    forall b ensures Outstanding(s', b) <==> Outstanding(s, b) && b != a {
      if InCq(s, b) && b != a {
        var i :| 0 <= i < |s.queue| && s.queue[i].addr == b;
        assert i > 0 && s'.queue[i - 1] == s.queue[i];
      }
    }
  }

  lemma HandleKeeps(w: World)
    requires Inv(w) && Enabled(DoHandle, w)
    ensures Inv(World(Handle(w.s), HandlePast(w)))
  {
    HandleEffect(w);
    var w' := World(Handle(w.s), HandlePast(w));
    var a := w.s.queue[0].addr;
    var root := w.s.frames[a].chainTask;
    forall r | 0 <= r < |w.past| ensures RootOk(w', r) {
      if r == root { HandleRoot(w); } else { assert RootOk(w, r); NotIn(w, a, r); RootFrame(w, w', r); }
    }
  }

  lemma HandleRoot(w: World)
    requires Inv(w) && Enabled(DoHandle, w)
    ensures RootOk(World(Handle(w.s), HandlePast(w)), w.s.frames[w.s.queue[0].addr].chainTask)
  {
    HandleEffect(w);
    var a := w.s.queue[0].addr;
    assert Outstanding(w.s, a) by { assert InCq(w.s, a); }
    AnsweredRoot(w, World(Handle(w.s), HandlePast(w)), w.s.frames[a].chainTask, a, w.s.queue[0].with);
  }

  // The root whose leaf has been answered.
  lemma AnsweredRoot(w: World, w': World, r: nat, a: Addr, x: Completion)
    requires w.s.control.Idle? && w'.s.control.Idle? && r < |w.s.tasks| == |w.past| && r < |w'.s.tasks| == |w'.past|
    requires RootOk(w, r) && w.past[r].chain[0] == a && a in w.s.frames && w.s.frames[a].point.InIo?
    requires w'.s.frames
      == w.s.frames[a := w.s.frames[a].(point := w.s.frames[a].point.(token := w.s.frames[a].point.token.(with := x)))]
    requires w'.s.tasks[r] == w.s.tasks[r].(pending := false)
    requires w'.past[r] == w.past[r].(handled := w.past[r].handled + [x])
    requires Outstanding(w.s, a) && !Outstanding(w'.s, a)
    ensures RootOk(w', r)
  {}

  // Chains of different roots are disjoint: every frame carries its root.
  lemma NotIn(w: World, a: Addr, q: nat)
    requires Inv(w) && !w.s.control.Terminated? && q < |w.past| && a in w.s.frames && w.s.frames[a].chainTask != q
    ensures a !in w.past[q].chain
  {
    assert RootOk(w, q);
  }

  // A frame waiting for I/O is the leaf of its chain.
  lemma LeafOf(w: World, a: Addr)
    requires Inv(w) && !w.s.control.Terminated?
    requires a in w.s.frames && !w.s.frames[a].point.InTask?
    ensures 0 <= w.s.frames[a].chainTask < |w.past| && a == w.past[w.s.frames[a].chainTask].chain[0]
  {
    assert RootOk(w, w.s.frames[a].chainTask);
  }

  lemma ResumeKeeps(w: World, r: nat)
    requires Inv(w) && Enabled(DoResume(r), w)
    ensures Inv(w.(s := Resume(w.s, r)))
  {
    var w' := w.(s := Resume(w.s, r));
    forall b ensures Outstanding(w'.s, b) <==> Outstanding(w.s, b) {}
    forall q | 0 <= q < |w.past| ensures RootOk(w', q) { assert RootOk(w, q); }
  }

  lemma EmplaceKeeps(w: World, a: Addr, c: Local)
    requires Inv(w) && (w.s.control.Idle? || w.s.control.Running?) && w.s.Fresh(a)
    ensures Inv(World(Emplace(w.s, a, c), w.past + [NewPast(c, a)]))
  {
    var w' := World(Emplace(w.s, a, c), w.past + [NewPast(c, a)]);
    forall b ensures Outstanding(w'.s, b) <==> Outstanding(w.s, b) {}
    forall q | 0 <= q < |w'.past| ensures RootOk(w', q) {
      if q < |w.past| { assert RootOk(w, q); RootFrame(w, w', q); } else { assert w'.past[q].chain == [a]; }
    }
  }

  // The running root is the only one a piece of work touches, apart from one it may add.
  lemma OthersKeep(w: World, w': World, r: nat)
    requires Inv(w) && w.s.control.Running? && w.s.control.root == r
    requires |w'.s.tasks| == |w'.past| >= |w.past|
    requires w'.s.control.Idle? || (w'.s.control.Running? && w'.s.control.root == r)
    requires forall q | 0 <= q < |w.past| && q != r :: w'.past[q] == w.past[q] && w'.s.tasks[q] == w.s.tasks[q]
    requires forall a | a in w.s.frames && w.s.frames[a].chainTask != r ::
      a in w'.s.frames && w'.s.frames[a] == w.s.frames[a] && (Outstanding(w'.s, a) <==> Outstanding(w.s, a))
    ensures forall q | 0 <= q < |w.past| && q != r :: RootOk(w', q)
  {
    forall q | 0 <= q < |w.past| && q != r ensures RootOk(w', q) {
      assert RootOk(w, q);
      RootFrame(w, w', q);
    }
  }

  // The three ways a chain changes: its leaf moves, a callee is pushed, a finished callee is popped.
  lemma LeafMoves(fs: map<Addr, Frame>, r: int, ch: seq<Addr>, p: Point)
    requires Shape(fs, r, ch) && !p.InTask? && (p.Final? ==> |ch| == 1)
    ensures Shape(fs[ch[0] := fs[ch[0]].(point := p)], r, ch)
  {}

  lemma CalleePushed(fs: map<Addr, Frame>, r: int, ch: seq<Addr>, a: Addr, c: Local, k: Outcome -> Local)
    requires Shape(fs, r, ch) && a !in fs && a != NULL && fs[ch[0]].point.Body?
    ensures Shape(fs[ch[0] := fs[ch[0]].(point := InTask(a, k))][a := Frame(Body(c), ch[0], r)], r, [a] + ch)
  {
    var ch' := [a] + ch;
    assert forall i | 0 < i < |ch'| :: ch'[i] == ch[i - 1];
  }

  lemma CalleePopped(fs: map<Addr, Frame>, r: int, ch: seq<Addr>, c: Local)
    requires Shape(fs, r, ch) && |ch| > 1
    ensures Shape(fs[ch[1] := fs[ch[1]].(point := Body(c))] - {ch[0]}, r, ch[1..])
  {
    assert forall i | 0 <= i < |ch| - 1 :: ch[1..][i] == ch[i + 1];
  }

  // What is known when a root is at work.
  ghost predicate AtWork(w: World, r: nat, f: Addr, p: Past) {
    && Inv(w) && w.s.control == Running(r, f) && r < |w.past| && p == w.past[r]
  }

  lemma LeafIsRunning(w: World, r: nat, f: Addr, p: Past)
    requires AtWork(w, r, f, p)
    ensures RootOk(w, r) && f in w.s.frames && p.chain != [] && p.chain[0] == f
    ensures w.s.frames[f].chainTask == r && !w.s.frames[f].point.InTask? && !w.s.frames[f].point.Final?
    ensures w.s.frames[f].caller == (if |p.chain| == 1 then NULL else p.chain[1])
    ensures !Outstanding(w.s, f)
  {
    assert RootOk(w, r);
  }

  // Frames that stay with their roots stay covered.
  lemma SameCover(w: World, w': World)
    requires Covered(w) && |w.past| <= |w'.past|
    requires forall b | b in w'.s.frames :: b in w.s.frames && w'.s.frames[b].chainTask == w.s.frames[b].chainTask
    requires forall q | 0 <= q < |w.past| :: w'.past[q].chain == w.past[q].chain
    ensures Covered(w')
  {}

  // Nothing is submitted and nothing completes, and no frame that waits is touched.
  lemma SameQueue(s: State, s': State)
    requires QueueOk(s) && s'.queue == s.queue && s'.inflight == s.inflight
    requires forall a | Outstanding(s, a) :: a in s'.frames && s'.frames[a].point.InIo?
    ensures QueueOk(s') && forall a :: Outstanding(s', a) <==> Outstanding(s, a)
  {
    assert forall a :: InCq(s', a) <==> InCq(s, a);
  }

  // The leaf goes on to another point of its body, having read its completion if it waited for one.
  lemma AdvanceKeeps(w: World, r: nat, f: Addr, p: Past, c: Local, p': Past)
    requires AtWork(w, r, f, p) && f in w.s.frames
    requires p' == p.(got := p.got + Unread(w.s, f), log := p'.log, steps := p'.steps)
    ensures Inv(World(w.s.Moved(f, Body(c)), w.past[r := p']))
  {
    var w' := World(w.s.Moved(f, Body(c)), w.past[r := p']);
    LeafIsRunning(w, r, f, p);
    SameQueue(w.s, w'.s);
    SameCover(w, w');
    OthersKeep(w, w', r);
    LeafAdvances(w, w', r, f, p);
  }

  lemma LeafAdvances(w: World, w': World, r: nat, f: Addr, p: Past)
    requires r < |w.s.tasks| == |w.past| && |w'.past| == |w.past| && RootOk(w, r) && p == w.past[r] && p.chain[0] == f
      && f in w.s.frames
    requires w.s.control == Running(r, f) && w'.s.tasks == w.s.tasks && w'.s.control == w.s.control
    requires f in w'.s.frames && w'.s.frames[f].point.Body?
      && w'.s.frames == w.s.frames[f := w.s.frames[f].(point := w'.s.frames[f].point)]
    requires !Outstanding(w'.s, f)
    requires w'.past[r] == p.(got := p.got + Unread(w.s, f), log := w'.past[r].log, steps := w'.past[r].steps)
    ensures RootOk(w', r)
  {
    LeafMoves(w.s.frames, r, p.chain, w'.s.frames[f].point);
  }

  lemma SpawnKeeps(w: World, r: nat, f: Addr, p: Past, c: Local, p': Past, a: Addr, child: Local)
    requires AtWork(w, r, f, p) && f in w.s.frames && w.s.Fresh(a) && w.s.frames[f].point.Body?
    requires p' == p.(log := p'.log, steps := p'.steps)
    ensures Inv(World(Emplace(w.s.Moved(f, Body(c)), a, child), w.past[r := p'] + [NewPast(child, a)]))
  {
    assert p.got + Unread(w.s, f) == p.got;
    AdvanceKeeps(w, r, f, p, c, p');
    EmplaceKeeps(World(w.s.Moved(f, Body(c)), w.past[r := p']), a, child);
  }

  lemma IoSuspendEffect(w: World, r: nat, f: Addr, p: Past, k: Completion -> Local)
    requires AtWork(w, r, f, p) && f in w.s.frames && w.s.frames[f].point.Body? && r < |w.s.tasks|
    ensures var point := InIo(NEW_TOKEN.(chainTask := r), k);
      IoSuspend(w.s, r, f, k) == State(w.s.frames[f := w.s.frames[f].(point := point)],
        w.s.tasks[r := w.s.tasks[r].(awaiting := f, pending := true)], Idle, w.s.inflight + {f}, w.s.queue)
    ensures forall b :: Outstanding(IoSuspend(w.s, r, f, k), b) <==> Outstanding(w.s, b) || b == f
  {
    LeafIsRunning(w, r, f, p);
    var s' := IoSuspend(w.s, r, f, k);
    assert !w.s.frames[w.s.tasks[r].task].point.Final?;
    assert forall b :: InCq(s', b) <==> InCq(w.s, b);
  }

  lemma IoSuspendRoot(w: World, r: nat, f: Addr, p: Past, k: Completion -> Local, p': Past)
    requires AtWork(w, r, f, p) && f in w.s.frames && w.s.frames[f].point.Body?
    requires r < |w.s.tasks| && p' == p.(log := p'.log, steps := p'.steps)
    ensures RootOk(World(IoSuspend(w.s, r, f, k), w.past[r := p']), r)
  {
    LeafIsRunning(w, r, f, p);
    IoSuspendEffect(w, r, f, p, k);
    LeafMoves(w.s.frames, r, p.chain, InIo(NEW_TOKEN.(chainTask := r), k));
  }

  lemma IoSuspendKeeps(w: World, r: nat, f: Addr, p: Past, k: Completion -> Local, p': Past)
    requires AtWork(w, r, f, p) && f in w.s.frames && w.s.frames[f].point.Body?
    requires r < |w.s.tasks| && p' == p.(log := p'.log, steps := p'.steps)
    ensures Inv(World(IoSuspend(w.s, r, f, k), w.past[r := p']))
  {
    var w' := World(IoSuspend(w.s, r, f, k), w.past[r := p']);
    LeafIsRunning(w, r, f, p);
    IoSuspendEffect(w, r, f, p, k);
    IoSuspendRoot(w, r, f, p, k, p');
    OthersKeep(w, w', r);
    SameCover(w, w');
    QueueGains(w.s, w'.s, f);
  }

  lemma QueueGains(s: State, s': State, f: Addr)
    requires QueueOk(s) && s'.queue == s.queue && s'.inflight == s.inflight + {f} && !Outstanding(s, f)
    requires f in s'.frames && s'.frames[f].point.InIo? && forall a | a in s.frames && a != f ::
      a in s'.frames && s'.frames[a] == s.frames[a]
    ensures QueueOk(s')
  {
    assert forall a :: InCq(s', a) <==> InCq(s, a);
  }

  lemma TaskSuspendEffect(w: World, r: nat, f: Addr, p: Past, a: Addr, c: Local, k: Outcome -> Local)
    requires AtWork(w, r, f, p) && f in w.s.frames && w.s.frames[f].point.Body? && w.s.Fresh(a)
    ensures TaskSuspend(Call(w.s, a, c), r, f, a, k)
      == w.s.(frames := w.s.frames[f := w.s.frames[f].(point := InTask(a, k))][a := Frame(Body(c), f, r)],
        control := Running(r, a))
    ensures !Outstanding(w.s, a)
  {
    LeafIsRunning(w, r, f, p);
    assert TaskSuspend(Call(w.s, a, c), r, f, a, k).frames
        == w.s.frames[f := w.s.frames[f].(point := InTask(a, k))][a := Frame(Body(c), f, r)];
  }

  lemma TaskSuspendRoot(w: World, r: nat, f: Addr, p: Past, a: Addr, c: Local, k: Outcome -> Local, p': Past)
    requires AtWork(w, r, f, p) && f in w.s.frames && w.s.frames[f].point.Body? && w.s.Fresh(a)
    requires p' == p.(chain := [a] + p.chain, log := p'.log, steps := p'.steps)
    ensures RootOk(World(TaskSuspend(Call(w.s, a, c), r, f, a, k), w.past[r := p']), r)
  {
    LeafIsRunning(w, r, f, p);
    TaskSuspendEffect(w, r, f, p, a, c, k);
    CalleePushed(w.s.frames, r, p.chain, a, c, k);
    assert !InCq(TaskSuspend(Call(w.s, a, c), r, f, a, k), a);
  }

  lemma TaskSuspendKeeps(w: World, r: nat, f: Addr, p: Past, a: Addr, c: Local, k: Outcome -> Local, p': Past)
    requires AtWork(w, r, f, p) && f in w.s.frames && w.s.frames[f].point.Body? && w.s.Fresh(a)
    requires p' == p.(chain := [a] + p.chain, log := p'.log, steps := p'.steps)
    ensures Inv(World(TaskSuspend(Call(w.s, a, c), r, f, a, k), w.past[r := p']))
  {
    var w' := World(TaskSuspend(Call(w.s, a, c), r, f, a, k), w.past[r := p']);
    LeafIsRunning(w, r, f, p);
    TaskSuspendEffect(w, r, f, p, a, c, k);
    SameQueue(w.s, w'.s);
    TaskSuspendRoot(w, r, f, p, a, c, k, p');
    TaskSuspendOthers(w, r, f, p, a, c, k, p');
    CoverGrows(w, w', r, a);
  }

  lemma TaskSuspendOthers(w: World, r: nat, f: Addr, p: Past, a: Addr, c: Local, k: Outcome -> Local, p': Past)
    requires AtWork(w, r, f, p) && f in w.s.frames && w.s.frames[f].point.Body? && w.s.Fresh(a)
    ensures var w' := World(TaskSuspend(Call(w.s, a, c), r, f, a, k), w.past[r := p']);
      |w'.s.tasks| == |w'.past| && forall q | 0 <= q < |w.past| && q != r :: RootOk(w', q)
  {
    var w' := World(TaskSuspend(Call(w.s, a, c), r, f, a, k), w.past[r := p']);
    LeafIsRunning(w, r, f, p);
    TaskSuspendEffect(w, r, f, p, a, c, k);
    SameQueue(w.s, w'.s);
    OthersKeep(w, w', r);
  }

  lemma CoverGrows(w: World, w': World, r: nat, a: Addr)
    requires Covered(w) && r < |w.past| == |w'.past| && w'.past[r].chain == [a] + w.past[r].chain
    requires forall q | 0 <= q < |w.past| && q != r :: w'.past[q] == w.past[q]
    requires a in w'.s.frames && w'.s.frames[a].chainTask == r
    requires forall b | b in w'.s.frames && b != a ::
      b in w.s.frames && w'.s.frames[b].chainTask == w.s.frames[b].chainTask
    ensures Covered(w')
  {
    assert a in w'.past[r].chain;
    forall b | b in w'.s.frames ensures b in w'.past[w'.s.frames[b].chainTask].chain {
      if b in w.past[r].chain { assert b in w'.past[r].chain; }
    }
  }

  // The end of a callee, seen as one change of memory: the caller goes on and the callee is gone.
  lemma JoinEffect(w: World, r: nat, f: Addr, p: Past, o: Outcome)
    requires AtWork(w, r, f, p) && f in w.s.frames && r < |w.s.tasks| && |p.chain| > 1
    ensures var g := p.chain[1];
      && g in w.s.frames && g != f && w.s.frames[g].point.InTask?
      && FinalSuspend(w.s, r, f, o) == w.s.(
        frames := w.s.frames[g := w.s.frames[g].(point := Body(w.s.frames[g].point.onJoin(o)))] - {f},
        control := Running(r, g))
  {
    LeafIsRunning(w, r, f, p);
    var g := p.chain[1];
    var ended := w.s.Moved(f, Final(o));
    assert TaskResume(ended, r, g).frames
        == w.s.frames[g := w.s.frames[g].(point := Body(w.s.frames[g].point.onJoin(o)))] - {f};
  }

  lemma JoinKeeps(w: World, r: nat, f: Addr, p: Past, o: Outcome, p': Past)
    requires AtWork(w, r, f, p) && f in w.s.frames && w.s.frames[f].point.Body? && r < |w.s.tasks|
    requires |p.chain| > 1 && p' == p.(chain := p.chain[1..], log := p'.log, steps := p'.steps)
    ensures Inv(World(FinalSuspend(w.s, r, f, o), w.past[r := p']))
  {
    var w' := World(FinalSuspend(w.s, r, f, o), w.past[r := p']);
    JoinRoot(w, r, f, p, o, p');
    JoinEffect(w, r, f, p, o);
    LeafIsRunning(w, r, f, p);
    SameQueue(w.s, w'.s);
    OthersKeep(w, w', r);
    CoverShrinks(w, w', r, f);
  }

  lemma CoverShrinks(w: World, w': World, r: nat, f: Addr)
    requires Covered(w) && r < |w.past| == |w'.past| && w.past[r].chain != [] && w.past[r].chain[0] == f
      && w'.past[r].chain == w.past[r].chain[1..]
    requires forall q | 0 <= q < |w.past| && q != r :: w'.past[q] == w.past[q]
    requires forall b | b in w'.s.frames ::
      b != f && b in w.s.frames && w'.s.frames[b].chainTask == w.s.frames[b].chainTask
    ensures Covered(w')
  {
    var ch := w.past[r].chain;
    forall b | b in w'.s.frames ensures b in w'.past[w'.s.frames[b].chainTask].chain {
      if w.s.frames[b].chainTask == r {
        var i :| 0 <= i < |ch| && ch[i] == b;
        assert ch[1..][i - 1] == b;
      }
    }
  }

  lemma JoinRoot(w: World, r: nat, f: Addr, p: Past, o: Outcome, p': Past)
    requires AtWork(w, r, f, p) && f in w.s.frames && w.s.frames[f].point.Body? && r < |w.s.tasks|
    requires |p.chain| > 1 && p' == p.(chain := p.chain[1..], log := p'.log, steps := p'.steps)
    ensures RootOk(World(FinalSuspend(w.s, r, f, o), w.past[r := p']), r)
  {
    LeafIsRunning(w, r, f, p);
    JoinEffect(w, r, f, p, o);
    var s' := FinalSuspend(w.s, r, f, o);
    CalleePopped(w.s.frames, r, p.chain, w.s.frames[p.chain[1]].point.onJoin(o));
    assert forall b :: Outstanding(s', b) <==> Outstanding(w.s, b);
    assert !Outstanding(w.s, p.chain[1]);
  }

  lemma FinalSuspendKeeps(w: World, r: nat, f: Addr, p: Past, o: Outcome, p': Past)
    requires AtWork(w, r, f, p) && f in w.s.frames && w.s.frames[f].point.Body? && r < |w.s.tasks| && p.chain != []
    requires p' == p.(chain := if w.s.frames[f].caller == NULL then p.chain else p.chain[1..],
      log := p'.log, steps := p'.steps)
    ensures Inv(World(FinalSuspend(w.s, r, f, o), w.past[r := p']))
  {
    LeafIsRunning(w, r, f, p);
    if |p.chain| > 1 {
      JoinKeeps(w, r, f, p, o, p');
    } else if o.Returned? {
      RootEnds(w, r, f, p, o, p');
    }
  }

  lemma RootEnds(w: World, r: nat, f: Addr, p: Past, o: Outcome, p': Past)
    requires AtWork(w, r, f, p) && f in w.s.frames && w.s.frames[f].point.Body? && r < |w.s.tasks|
    requires |p.chain| == 1 && o.Returned? && p' == p.(log := p'.log, steps := p'.steps)
    ensures Inv(World(FinalSuspend(w.s, r, f, o), w.past[r := p']))
  {
    LeafIsRunning(w, r, f, p);
    var s', t := FinalSuspend(w.s, r, f, o), w.s.tasks[r];
    var w' := World(s', w.past[r := p']);
    LeafMoves(w.s.frames, r, p.chain, Final(o));
    assert s' == w.s.Moved(f, Final(o)).(control := Idle, tasks := w.s.tasks[r := t.(valid := false)]);
    assert forall b :: Outstanding(s', b) <==> Outstanding(w.s, b);
    assert RootOk(w', r);
    OthersKeep(w, w', r);
  }

  // Every piece of work keeps the invariant.
  lemma WorkKeeps(code: Code, w: World, a: Addr)
    requires Inv(w) && Enabled(DoWork(a), w)
    ensures Inv(Apply(code, DoWork(a), w))
  {
    var r, f := w.s.control.root, w.s.control.frame;
    var p := w.past[r];
    LeafIsRunning(w, r, f, p);
    var p' := WorkPast(code, w, a)[r];
    match w.s.frames[f].point
    case InIo(token, k) =>
      assert w.past[r := p'] + [] == w.past[r := p'];
      AdvanceKeeps(w, r, f, p, k(token.with), p');
    case Body(c) =>
      assert w.past[r := p'] + [] == w.past[r := p'];
      match code(c) {
        case Return(v) => FinalSuspendKeeps(w, r, f, p, Returned(v), p');
        case Throw(e) => FinalSuspendKeeps(w, r, f, p, Raised(e), p');
        case Await(callee, k) => TaskSuspendKeeps(w, r, f, p, a, callee, k, p');
        case Io(req, k) => IoSuspendKeeps(w, r, f, p, k, p');
        case Spawn(child, next) => SpawnKeeps(w, r, f, p, next, p', a, child);
      }
  }

  lemma StepKeeps(code: Code, l: Label, w: World)
    requires Inv(w) && Enabled(l, w)
    ensures Inv(Apply(code, l, w))
  {
    match l
    case DoWork(a) => WorkKeeps(code, w, a);
    case DoResume(r) => ResumeKeeps(w, r);
    case DoEmplace(a, c) => EmplaceKeeps(w, a, c);
    case DoComplete(a, x) => CompleteKeeps(w, a, x);
    case DoHandle => HandleKeeps(w);
  }

  lemma ReachableInv(code: Code, w: World)
    requires Reachable(code, w)
    ensures Inv(w)
  {
    var ws :| IsRun(code, ws) && ws[|ws| - 1] == w;
    RunKeeps(code, ws);
  }

  lemma {:induction false} RunKeeps(code: Code, ws: seq<World>)
    requires IsRun(code, ws)
    ensures Inv(ws[|ws| - 1])
  {
    if |ws| > 1 {
      RunKeeps(code, ws[..|ws| - 1]);
      var l :| Enabled(l, ws[|ws| - 2]) && ws[|ws| - 1] == Apply(code, l, ws[|ws| - 2]);
      StepKeeps(code, l, ws[|ws| - 2]);
    }
  }
}
