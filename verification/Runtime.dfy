/** The runtime of one ring as it is programmed: frames, task list and completion queue updated in
    place. Every method does what the transition of the same name in Coroutines describes. */
module Runtime {
  import opened Common
  import opened Programs
  import opened Chains
  import opened Coroutines
  import opened ChainInvariant
  import opened Meaning
  import opened Scheduling
  import opened ResumptionTheorems
  import opened PassLength

  // Holds from a ring's creation on, whatever it does, and includes the meaning of the chains.
  ghost predicate IsInvariant(code: Code, inv: World -> bool) {
    && (forall w, w' {:trigger Step(code, w, w')} | inv(w) && Step(code, w, w') :: inv(w'))
    && (forall w {:trigger Inv(w)} {:trigger MeaningInv(code, w)} | inv(w) :: MeaningInv(code, w))
  }

  lemma ReachableIsInvariant(code: Code)
    ensures IsInvariant(code, w => Reachable(code, w)) && Reachable(code, INIT)
  {
    ReachesInit(code);
    forall w, w' | Reachable(code, w) && Step(code, w, w') ensures Reachable(code, w') { ReachesNext(code, w, w'); }
    forall w | Reachable(code, w) ensures MeaningInv(code, w) { ReachableMeaning(code, w); }
  }

  class TaskRing {
    const code: Code
    const alloc: Alloc
    ghost const inv: World -> bool  // reachability, chosen once by the constructor
    var frames: map<Addr, Frame>
    var taskQueue: seq<ScheduledTask>
    var control: Control
    var inflight: set<Addr>
    var queue: seq<Cqe>
    ghost var past: seq<Past>

    ghost function S(): State
      reads this
    {
      State(frames, taskQueue, control, inflight, queue)
    }

    ghost function W(): World
      reads this
    {
      World(S(), past)
    }

    ghost predicate Valid()
      reads this
    {
      inv(W()) && GoodAlloc(alloc) && IsInvariant(code, inv)
    }

    constructor (code: Code, alloc: Alloc)
      requires GoodAlloc(alloc)
      ensures Valid() && W() == INIT && this.code == code && inv == (w => Reachable(code, w))
    {
      this.code, this.alloc := code, alloc;
      frames, taskQueue, control, inflight, queue := map[], [], Idle, {}, [];
      past := [];
      inv := w => Reachable(code, w);
      new;
      ReachableIsInvariant(code);
    }

    // TaskLoop::emplace_back and enqueue, and the ScheduledTask constructor.
    method EmplaceBack(c: Local, a: Addr)
      requires S().Fresh(a)
      modifies `frames, `taskQueue
      ensures S() == Emplace(old(S()), a, c)
    {
      frames := frames[a := Frame(Body(c), NULL, NO_TASK)];
      taskQueue := taskQueue + [ScheduledTask(a, a, true, false)];
      frames := frames[a := frames[a].(chainTask := |taskQueue| - 1)];
    }

    // TaskAwaier::await_suspend, on a task just created by calling `c`.
    method AwaitTask(caller: Addr, c: Local, k: Outcome -> Local, callee: Addr)
      requires control.Running? && caller in frames && S().Fresh(callee)
      modifies `frames, `control
      ensures S() == TaskSuspend(Call(old(S()), callee, c), old(control.root), caller, callee, k)
    {
      frames := frames[callee := Frame(Body(c), NULL, NO_TASK)];
      frames := frames[caller := frames[caller].(point := InTask(callee, k))];
      frames := frames[callee := frames[callee].(caller := caller)];
      frames := frames[callee := frames[callee].(chainTask := frames[caller].chainTask)];
      control := Running(control.root, callee);
    }

    // FinalTaskAwaiter::await_suspend, and await_resume in the caller when there is one.
    method FinishTask(f: Addr, o: Outcome)
      requires control.Running? && control.root < |taskQueue| && f in frames
      modifies `frames, `control, `taskQueue
      ensures S() == FinalSuspend(old(S()), old(control.root), f, o)
    {
      frames := frames[f := frames[f].(point := Final(o))];
      var caller := frames[f].caller;
      if caller != NULL {
        ResumeCaller(caller);
      } else if o.Raised? {
        control := Terminated;
      } else {
        ReturnFromResume();
      }
    }

    // TaskAwaier::await_resume, and the end of the awaited temporary.
    method ResumeCaller(caller: Addr)
      requires control.Running?
      modifies `frames, `control
      ensures S() == TaskResume(old(S()), old(control.root), caller)
    {
      if caller !in frames || !frames[caller].point.InTask? { control := Fault; return; }
      var callee, k := frames[caller].point.callee, frames[caller].point.onJoin;
      if callee == caller || callee !in frames || !frames[callee].point.Final? { control := Fault; return; }
      frames := frames[caller := frames[caller].(point := Body(k(frames[callee].point.outcome)))];
      frames := frames - {callee};
      control := Running(control.root, caller);
    }

    // UringAwaiter::await_suspend.
    method AwaitIo(f: Addr, k: Completion -> Local)
      requires control.Running? && control.root < |taskQueue| && f in frames
      modifies `frames, `control, `taskQueue, `inflight
      ensures S() == IoSuspend(old(S()), old(control.root), f, k)
    {
      var root := frames[f].chainTask;
      if !(0 <= root < |taskQueue|) { control := Fault; return; }
      taskQueue := taskQueue[root := taskQueue[root].(awaiting := f)];
      frames := frames[f := frames[f].(point := InIo(NEW_TOKEN.(chainTask := root), k))];
      taskQueue := taskQueue[root := taskQueue[root].(pending := true)];
      inflight := inflight + {f};
      ReturnFromResume();
    }

    // The last lines of ScheduledTask::resume.
    method ReturnFromResume()
      requires control.Running? && control.root < |taskQueue|
      modifies `control, `taskQueue
      ensures S() == BackInResume(old(S()), old(control.root))
    {
      var r := control.root;
      if taskQueue[r].task !in frames { control := Fault; return; }
      if frames[taskQueue[r].task].point.Final? { taskQueue := taskQueue[r := taskQueue[r].(valid := false)]; }
      control := Idle;
    }

    // What the frame in control does up to its next transfer of control.
    method RunFrame()
      requires Valid() && control.Running?
      modifies this
      ensures Valid() && WorkStep(code, old(W()), W())
    {
      ghost var before := W();
      assert Inv(before);
      var f, a := control.frame, alloc(frames.Keys);
      LeafIsRunning(W(), control.root, f, past[control.root]);
      past := WorkPast(code, before, a);
      match frames[f].point {
        case InIo(token, k) => frames := frames[f := frames[f].(point := Body(k(token.with)))];
        case Body(c) =>
          match code(c) {
            case Return(v) => FinishTask(f, Returned(v));
            case Throw(e) => FinishTask(f, Raised(e));
            case Await(callee, k) => AwaitTask(f, callee, k, a);
            case Io(req, k) => AwaitIo(f, k);
            case Spawn(child, next) =>
              frames := frames[f := frames[f].(point := Body(next))];
              EmplaceBack(child, a);
          }
      }
      assert W() == Apply(code, DoWork(a), before);
      assert Step(code, before, W());
    }

    // TaskLoop::enqueue, between resumptions.
    method Enqueue(c: Local)
      requires Valid() && control.Idle?
      modifies this
      ensures Valid() && exists a :: Enabled(DoEmplace(a, c), old(W())) && W() == Apply(code, DoEmplace(a, c), old(W()))
    {
      ghost var before := W();
      var a := alloc(frames.Keys);
      EmplaceBack(c, a);
      past := past + [NewPast(c, a)];
      assert Enabled(DoEmplace(a, c), before) && W() == Apply(code, DoEmplace(a, c), before);
      assert Step(code, before, W());
    }

    // The default branch of Uring::handle_request: the token gets the result, its root is woken.
    method HandleCompletion()
      requires Valid() && control.Idle? && queue != []
      modifies this
      ensures Valid() && W() == Apply(code, DoHandle, old(W()))
    {
      ghost var before := W();
      assert Inv(before);
      HandleEffect(before);
      var a, x := queue[0].addr, queue[0].with;
      past := HandlePast(before);
      var token := frames[a].point.token;
      frames := frames[a := frames[a].(point := frames[a].point.(token := token.(with := x)))];
      taskQueue := taskQueue[token.chainTask := taskQueue[token.chainTask].(pending := false)];
      queue := queue[1..];
      assert Enabled(DoHandle, before) && W() == Apply(code, DoHandle, before);
      assert Step(code, before, W());
    }

    // The kernel posts the completion of an operation, at any time.
    method Post(a: Addr, x: Completion)
      requires Valid() && a in inflight && (control.Idle? || control.Running?)
      modifies `inflight, `queue
      ensures Valid() && W() == Apply(code, DoComplete(a, x), old(W()))
    {
      ghost var before := W();
      inflight := inflight - {a};
      queue := queue + [Cqe(a, x)];
      assert Enabled(DoComplete(a, x), before) && W() == Apply(code, DoComplete(a, x), before);
      assert Step(code, before, W());
    }

    // The running root works until control is back in resume(); at most `most` pieces of work are left.
    method RunToSuspension(ghost step: Transition, ghost start: World, ghost left: Leaves, ghost most: nat)
      returns (ghost n: nat)
      requires Valid() && control.Running? && start == W()
      requires Includes(step, code) && Bounds(left, code) && left(W(), most)
      modifies this
      ensures Valid() && !control.Running? && Steps(step, start, W(), n)
    {
      ghost var k := most;
      n := 0;
      while control.Running?
        invariant Valid() && Steps(step, start, W(), n) && (control.Running? ==> left(W(), k))
        decreases k, control.Running?
      {
        k := RunFrameOf(step, start, left, k, n);
        n := n + 1;
      }
    }

    // One more piece of work of a resumption that began in `start`.
    method RunFrameOf(ghost step: Transition, ghost start: World, ghost left: Leaves, ghost k: nat, ghost n: nat)
      returns (ghost k': nat)
      requires Valid() && control.Running? && Steps(step, start, W(), n)
      requires Includes(step, code) && Bounds(left, code) && left(W(), k)
      modifies this
      ensures Valid() && Steps(step, start, W(), n + 1) && k' < k && (control.Running? ==> left(W(), k'))
    {
      ghost var before := W();
      RunFrame();
      assert Spends(left, code, before, k, W());
      k' := k - 1;
      OneMore(step, start, before, W(), n);
    }

    // ScheduledTask::resume, of a root whose sequential reading ends or blocks.
    method Resume(r: nat)
      requires Valid() && Enabled(DoResume(r), W())
      requires r < |past| && DirectEnds(code, past[r].start, past[r].handled)
      modifies this
      ensures Valid() && !control.Running?
      ensures control.Idle? ==> Resumes(code)(old(W()), r, W()) && |taskQueue| >= |old(taskQueue)|
    {
      ghost var start := W();
      assert MeaningInv(code, start);
      ghost var cfg, m, k := LeftAtFirst(code, start, r);
      control := Running(r, taskQueue[r].awaiting);
      assert W() == Apply(code, DoResume(r), start);
      assert Step(code, start, W());
      LeavesBound(code, r, cfg, m);
      ghost var n := RunToSuspension(Works(code), W(), WorkLeft(code, r, cfg, m), k);
      if control.Idle? { WorkedThrough(code, start, r, W(), n); }
    }

    // TaskLoop::run: the list is walked while the tasks it resumes append to it. The spawn trees of
    // the ready roots are finite, and what their bodies do ends or blocks.
    method Run(ghost n: nat, ghost d: nat) returns (ghost order: seq<nat>)
      requires Valid() && control.Idle? && TameFrom(code, W(), 0, n, d)
      modifies this
      ensures Valid() && !control.Running?
      ensures control.Idle? ==> PassTo(Resumes(code), Posts(code), old(W()), |taskQueue|, order, W())
    {
      ghost var w0, total := W(), Total(code, W(), n, d);
      PassBegins(code, w0, n, d);
      var i := 0;
      order := [];
      while control.Idle? && i < |taskQueue|
        invariant Valid() && !control.Running? && i <= total
        invariant control.Idle? ==> i <= |taskQueue| && Underway(code, w0, i, order, W(), n, d)
        decreases total - i, control.Idle?
      {
        order := RunAt(w0, i, order, n, d);
        if control.Idle? { i := i + 1; }
      }
    }

    // One position of the walk: the task there is resumed if it is valid and not pending.
    method RunAt(ghost w0: World, i: nat, ghost before: seq<nat>, ghost n: nat, ghost d: nat)
      returns (ghost order: seq<nat>)
      requires Valid() && control.Idle? && i < |taskQueue| && Underway(code, w0, i, before, W(), n, d)
      modifies this
      ensures Valid() && !control.Running?
      ensures control.Idle? ==>
        i + 1 <= |taskQueue| <= Total(code, w0, n, d) && Underway(code, w0, i + 1, order, W(), n, d)
    {
      ghost var w1 := W();
      order := before;
      if taskQueue[i].valid && !taskQueue[i].pending {
        assert TameRoot(code, past[i], n, d);
        Resume(i);
        order := order + [i];
      }
      if control.Idle? { Visited(code, w0, i, before, w1, order, W(), n, d); }
    }
  }

  // The tasks there will be when a pass that begins in `w` is over.
  ghost function Total(code: Code, w: World, n: nat, d: nat): nat {
    if |w.past| == |w.s.tasks| then |w.past| + Future(code, w, 0, n, d) else 0
  }

  // A pass that began in `w0` has come to position `i`.
  ghost predicate Underway(code: Code, w0: World, i: nat, order: seq<nat>, w: World, n: nat, d: nat) {
    && |w0.past| == |w0.s.tasks| && PassTo(Resumes(code), Posts(code), w0, i, order, w) && Counted(code, w0, i, w, n, d)
  }

  lemma PassBegins(code: Code, w: World, n: nat, d: nat)
    requires MeaningInv(code, w) && w.s.control.Idle? && TameFrom(code, w, 0, n, d)
    ensures Underway(code, w, 0, [], w, n, d)
  {}

  ghost predicate Includes(step: Transition, code: Code) {
    forall w, w' {:trigger WorkStep(code, w, w')} | WorkStep(code, w, w') :: step(w, w')
  }

  // How much work the running root has left at most.
  type Leaves = (World, nat) -> bool

  // Every piece of work leaves less.
  ghost predicate Bounds(left: Leaves, code: Code) {
    forall w, k: nat, w' {:trigger Spends(left, code, w, k, w')} :: Spends(left, code, w, k, w')
  }

  ghost predicate Spends(left: Leaves, code: Code, w: World, k: nat, w': World) {
    left(w, k) && WorkStep(code, w, w') ==> k > 0 && (w'.s.control.Running? ==> left(w', k - 1))
  }

  ghost function WorkLeft(code: Code, r: nat, cfg: Config, m: nat): Leaves {
    (w, k: nat) => Left(code, r, cfg, m, w, k)
  }

  lemma LeavesBound(code: Code, r: nat, cfg: Config, m: nat)
    requires !Settle(code, cfg, m).after.now.AtCode?
    ensures Bounds(WorkLeft(code, r, cfg, m), code)
  {
    var left := WorkLeft(code, r, cfg, m);
    forall w, k: nat, w' ensures Spends(left, code, w, k, w') { WorkSpends(code, r, cfg, m, w, k, w'); }
  }

  lemma WorkSpends(code: Code, r: nat, cfg: Config, m: nat, w: World, k: nat, w': World)
    requires !Settle(code, cfg, m).after.now.AtCode?
    ensures Spends(WorkLeft(code, r, cfg, m), code, w, k, w')
  {
    var left := WorkLeft(code, r, cfg, m);
    forall a ensures SpendsAt(left, code, w, k, a) { WorkSpendsAt(code, r, cfg, m, w, k, a); }
    AnyWorkSpends(left, code, w, k, w');
  }

  // The same for the piece of work that would get its frame at `a`.
  ghost predicate SpendsAt(left: Leaves, code: Code, w: World, k: nat, a: Addr) {
    left(w, k) && Enabled(DoWork(a), w) ==>
      var w' := Apply(code, DoWork(a), w); k > 0 && (w'.s.control.Running? ==> left(w', k - 1))
  }

  lemma AnyWorkSpends(left: Leaves, code: Code, w: World, k: nat, w': World)
    requires forall a {:trigger SpendsAt(left, code, w, k, a)} :: SpendsAt(left, code, w, k, a)
    ensures Spends(left, code, w, k, w')
  {
    if WorkStep(code, w, w') {
      var a :| Enabled(DoWork(a), w) && w' == Apply(code, DoWork(a), w);
      assert SpendsAt(left, code, w, k, a);
    }
  }

  lemma WorkSpendsAt(code: Code, r: nat, cfg: Config, m: nat, w: World, k: nat, a: Addr)
    requires !Settle(code, cfg, m).after.now.AtCode?
    ensures SpendsAt(WorkLeft(code, r, cfg, m), code, w, k, a)
  {
    if Left(code, r, cfg, m, w, k) && Enabled(DoWork(a), w) {
      LessIsLeft(code, r, cfg, m, w, k, a, Apply(code, DoWork(a), w));
    }
  }

  lemma LessIsLeft(code: Code, r: nat, cfg: Config, m: nat, w: World, k: nat, a: Addr, w': World)
    requires !Settle(code, cfg, m).after.now.AtCode? && Left(code, r, cfg, m, w, k)
    requires Enabled(DoWork(a), w) && w' == Apply(code, DoWork(a), w)
    ensures k > 0 && (w'.s.control.Running? ==> WorkLeft(code, r, cfg, m)(w', k - 1))
  {
    StillLeft(code, r, cfg, m, w, k, a, w');
  }

  lemma StillLeft(code: Code, r: nat, cfg: Config, m: nat, w: World, k: nat, a: Addr, w': World)
    requires !Settle(code, cfg, m).after.now.AtCode? && Left(code, r, cfg, m, w, k)
    requires Enabled(DoWork(a), w) && w' == Apply(code, DoWork(a), w)
    ensures k > 0 && (w'.s.control.Running? ==> Left(code, r, cfg, m, w', k - 1))
  {
    WorkDecreases(code, r, cfg, m, w, k, a);
  }

  lemma OneMore(step: Transition, w0: World, w: World, w': World, n: nat)
    requires Steps(step, w0, w, n) && step(w, w')
    ensures Steps(step, w0, w', n + 1)
  {
    assert Steps(step, w0, w, (n + 1) - 1) && step(w, w');
  }

  // Work without anything posted meanwhile is a resumption too.
  lemma WorkedThrough(code: Code, w: World, r: nat, w': World, n: nat)
    requires Inv(w) && Enabled(DoResume(r), w) && Steps(Works(code), Apply(code, DoResume(r), w), w', n)
      && w'.s.control.Idle?
    ensures Resumes(code)(w, r, w') && |w'.s.tasks| >= |w.s.tasks|
  {
    WorksAreRuns(code);
    StepsInclude(Works(code), Runs(code), Apply(code, DoResume(r), w), w', n);
    assert Resumption(code, w, r, w');
    ResumesIsLocal(code);
  }

  lemma Visited(code: Code, w0: World, i: nat, before: seq<nat>, w1: World, order: seq<nat>, w: World, n: nat, d: nat)
    requires Underway(code, w0, i, before, w1, n, d) && VisitAt(Resumes(code), w1, i + 1, w, before, order)
    ensures Underway(code, w0, i + 1, order, w, n, d) && i + 1 <= |w.s.tasks| <= Total(code, w0, n, d)
  {
    VisitedPass(code, w0, i, before, w1, order, w);
    VisitedCounts(code, w0, i, before, w1, order, w, n, d);
  }

  lemma VisitedPass(code: Code, w0: World, i: nat, before: seq<nat>, w1: World, order: seq<nat>, w: World)
    requires PassTo(Resumes(code), Posts(code), w0, i, before, w1) && w1.s.control.Idle?
    requires VisitAt(Resumes(code), w1, i + 1, w, before, order)
    ensures PassTo(Resumes(code), Posts(code), w0, i + 1, order, w)
  {
    NothingPosted(code, w1);
    VisitTo(Resumes(code), Posts(code), w0, i, before, w1, order, w);
  }

  lemma VisitedCounts(code: Code, w0: World, i: nat, before: seq<nat>, w1: World, order: seq<nat>, w: World,
      n: nat, d: nat)
    requires |w0.past| == |w0.s.tasks| && Counted(code, w0, i, w1, n, d)
    requires VisitAt(Resumes(code), w1, i + 1, w, before, order)
    ensures Counted(code, w0, i + 1, w, n, d) && i + 1 <= |w.s.tasks| <= Total(code, w0, n, d)
  {
    VisitCounts(code, w0, i + 1, before, w1, order, w, n, d);
    CountedIsBounded(code, w0, i + 1, w, n, d);
    ResumesIsLocal(code);
    VisitGrows(Resumes(code), w => Inv(w), w1, i + 1, w, before, order);
  }

  lemma CountedIsBounded(code: Code, w0: World, i: nat, w: World, n: nat, d: nat)
    requires |w0.past| == |w0.s.tasks| && Counted(code, w0, i, w, n, d)
    ensures |w.s.tasks| <= Total(code, w0, n, d)
  {}

  // A visit leaves every entry in the list.
  lemma VisitGrows(resumes: Resuming, inv: World -> bool, w: World, i: nat, w': World, before: seq<nat>,
      order: seq<nat>)
    requires ResumptionIsLocal(resumes, inv) && inv(w) && VisitAt(resumes, w, i, w', before, order)
    ensures i <= |w'.s.tasks|
  {
    if Ready(w.s.tasks[i - 1]) { assert OnlyTouches(w, w', i - 1); }
  }

  lemma VisitTo(resumes: Resuming, posts: Transition, w0: World, i: nat, before: seq<nat>, w1: World, order: seq<nat>,
      w: World)
    requires PassTo(resumes, posts, w0, i, before, w1) && posts(w1, w1) && VisitAt(resumes, w1, i + 1, w, before, order)
    ensures PassTo(resumes, posts, w0, i + 1, order, w)
  {
    assert PassTo(resumes, posts, w0, (i + 1) - 1, before, w1);
    assert Visit(resumes, posts, w1, i + 1, w, before, order);
  }
}
