/** Resumptions and scheduler passes: what ScheduledTask::resume and TaskLoop::run do to a ring. */
module Scheduling {
  import opened Common
  import opened Programs
  import opened Chains
  import opened Coroutines
  import opened ChainInvariant
  import opened Meaning

  type Transition = (World, World) -> bool
  type Resuming = (World, nat, World) -> bool

  // One piece of work, with any allocation of a frame.
  ghost predicate WorkStep(code: Code, w: World, w': World) {
    exists a :: Enabled(DoWork(a), w) && w' == Apply(code, DoWork(a), w)
  }

  // The kernel posts a completion. It may do so at any time, also while a root is at work.
  ghost predicate PostStep(code: Code, w: World, w': World) {
    exists a, x :: Enabled(DoComplete(a, x), w) && w' == Apply(code, DoComplete(a, x), w)
  }

  // What happens while a root runs: a piece of its work, or a completion is posted.
  ghost predicate RunStep(code: Code, w: World, w': World) {
    w.s.control.Running? && (WorkStep(code, w, w') || PostStep(code, w, w'))
  }

  ghost function Works(code: Code): Transition { (w, w') => WorkStep(code, w, w') }
  ghost function Runs(code: Code): Transition { (w, w') => RunStep(code, w, w') }
  ghost function PostSteps(code: Code): Transition { (w, w') => PostStep(code, w, w') }

  // Any number of completions are posted between two resumptions.
  ghost predicate Posted(code: Code, w: World, w': World) {
    w.s.control.Idle? && exists n: nat :: Steps(PostSteps(code), w, w', n)
  }

  ghost function Posts(code: Code): Transition { (w, w') => Posted(code, w, w') }

  // `n` transitions, one after the other.
  ghost predicate Steps(step: Transition, w: World, w': World, n: nat)
    decreases n
  {
    if n == 0 then w' == w else exists w1 :: Steps(step, w, w1, n - 1) && step(w1, w')
  }

  ghost predicate Ready(t: ScheduledTask) { t.valid && !t.pending }

  // One resumption touches one root, and leaves new ones ready behind the others.
  ghost predicate OnlyTouches(w: World, w': World, r: nat) {
    && |w.s.tasks| <= |w'.s.tasks| && |w.past| == |w.s.tasks| && |w'.past| == |w'.s.tasks|
    && (forall q | 0 <= q < |w.s.tasks| && q != r :: w'.s.tasks[q] == w.s.tasks[q] && w'.past[q] == w.past[q])
    && (forall q | |w.s.tasks| <= q < |w'.s.tasks| :: Ready(w'.s.tasks[q]))
    && w.s.queue <= w'.s.queue
  }

  // Still the same resumption, or back in the scheduler.
  ghost predicate SameResumption(w: World, r: nat) {
    w.s.control.Idle? || (w.s.control.Running? && w.s.control.root == r)
  }

  // What one step of a running root may do, under some invariant.
  ghost predicate RunIsLocal(step: Transition, inv: World -> bool) {
    forall w, w' | inv(w) && step(w, w') ::
      && inv(w') && w.s.control.Running?
      && (!w'.s.control.Terminated? ==> OnlyTouches(w, w', w.s.control.root) && SameResumption(w', w.s.control.root))
  }

  lemma RunsIsLocal(code: Code)
    ensures RunIsLocal(Runs(code), w => Inv(w))
  {
    forall w, w' | Inv(w) && Runs(code)(w, w')
      ensures Inv(w') && w.s.control.Running?
      ensures !w'.s.control.Terminated? ==> OnlyTouches(w, w', w.s.control.root) && SameResumption(w', w.s.control.root)
    {
      if WorkStep(code, w, w') {
        var a :| Enabled(DoWork(a), w) && w' == Apply(code, DoWork(a), w);
        WorkKeeps(code, w, a);
        if !w'.s.control.Terminated? { WorkTouches(code, w, a); }
      } else {
        PostOnly(code, w, w');
      }
    }
  }

  // Posting leaves frames, roots and control alone.
  ghost predicate OnlyPosts(w: World, w': World) {
    && w'.s.frames == w.s.frames && w'.s.tasks == w.s.tasks && w'.s.control == w.s.control && w'.past == w.past
    && w.s.queue <= w'.s.queue && w'.s.inflight <= w.s.inflight
  }

  lemma PostOnly(code: Code, w: World, w': World)
    requires Inv(w) && PostStep(code, w, w')
    ensures Inv(w') && OnlyPosts(w, w') && |w'.s.inflight| < |w.s.inflight|
  {
    var a, x :| Enabled(DoComplete(a, x), w) && w' == Apply(code, DoComplete(a, x), w);
    CompleteKeeps(w, a, x);
  }

  ghost predicate PostIsLocal(posts: Transition, inv: World -> bool) {
    forall w, w' | inv(w) && posts(w, w') :: inv(w') && OnlyPosts(w, w')
  }

  lemma {:induction false} StepsPost(code: Code, w: World, w': World, n: nat)
    requires Inv(w) && Steps(PostSteps(code), w, w', n)
    ensures Inv(w') && OnlyPosts(w, w')
    decreases n
  {
    if n != 0 {
      var w1 :| Steps(PostSteps(code), w, w1, n - 1) && PostSteps(code)(w1, w');
      StepsPost(code, w, w1, n - 1);
      PostOnly(code, w1, w');
    }
  }

  lemma PostsIsLocal(code: Code)
    ensures PostIsLocal(Posts(code), w => Inv(w))
  {
    forall w, w' | Inv(w) && Posts(code)(w, w') ensures Inv(w') && OnlyPosts(w, w') {
      var n: nat :| Steps(PostSteps(code), w, w', n);
      StepsPost(code, w, w', n);
    }
  }

  lemma NothingPosted(code: Code, w: World)
    requires w.s.control.Idle?
    ensures Posts(code)(w, w)
  {
    assert Steps(PostSteps(code), w, w, 0);
  }

  lemma WorkTouches(code: Code, w: World, a: Addr)
    requires Inv(w) && Enabled(DoWork(a), w) && !Apply(code, DoWork(a), w).s.control.Terminated?
    ensures var w' := Apply(code, DoWork(a), w);
      OnlyTouches(w, w', w.s.control.root) && SameResumption(w', w.s.control.root)
  {
    LeafIsRunning(w, w.s.control.root, w.s.control.frame, w.past[w.s.control.root]);
    WorkKeeps(code, w, a);
    WorkOnTasks(code, w, a);
  }

  // Of the other roots' tasks one piece of work changes none, and it adds ready ones.
  lemma WorkOnTasks(code: Code, w: World, a: Addr)
    requires Enabled(DoWork(a), w) && AtWork(w, w.s.control.root, w.s.control.frame, w.past[w.s.control.root])
    requires !Work(code, w.s, a).control.Terminated?
    ensures var s, s', r := w.s, Work(code, w.s, a), w.s.control.root;
      && |s.tasks| <= |s'.tasks| && s'.queue == s.queue
      && (s'.control.Idle? || (s'.control.Running? && s'.control.root == r))
      && (forall q | 0 <= q < |s.tasks| && q != r :: s'.tasks[q] == s.tasks[q])
      && (forall q | |s.tasks| <= q < |s'.tasks| :: Ready(s'.tasks[q]))
  {
    var r, f := w.s.control.root, w.s.control.frame;
    LeafIsRunning(w, r, f, w.past[r]);
    match w.s.frames[f].point
    case InIo(_, _) =>
    case Body(c) =>
      match code(c) {
        case Return(v) => EndTouches(w, r, f, Returned(v));
        case Throw(e) => EndTouches(w, r, f, Raised(e));
        case _ =>
      }
  }

  // The end of a frame leaves every root but its own.
  lemma EndTouches(w: World, r: nat, f: Addr, o: Outcome)
    requires r < |w.past| == |w.s.tasks| && AtWork(w, r, f, w.past[r]) && f in w.s.frames
    requires !FinalSuspend(w.s, r, f, o).control.Terminated?
    ensures var s' := FinalSuspend(w.s, r, f, o);
      && |s'.tasks| == |w.s.tasks| && (forall q | 0 <= q < |w.s.tasks| && q != r :: s'.tasks[q] == w.s.tasks[q])
      && s'.queue == w.s.queue && (s'.control.Idle? || (s'.control.Running? && s'.control.root == r))
  {
    LeafIsRunning(w, r, f, w.past[r]);
    if |w.past[r].chain| > 1 { JoinEffect(w, r, f, w.past[r], o); }
  }

  lemma TouchesTwice(w0: World, w1: World, w2: World, r: nat)
    requires OnlyTouches(w0, w1, r) && OnlyTouches(w1, w2, r) && r < |w0.s.tasks|
    ensures OnlyTouches(w0, w2, r)
  {}

  lemma {:induction false} StepsTouch(step: Transition, inv: World -> bool, w: World, w': World, n: nat, r: nat)
    requires RunIsLocal(step, inv) && inv(w) && Steps(step, w, w', n)
    requires w.s.control.Running? && w.s.control.root == r < |w.s.tasks| == |w.past|
    ensures inv(w') && (!w'.s.control.Terminated? ==> OnlyTouches(w, w', r) && SameResumption(w', r))
    decreases n
  {
    if n != 0 {
      var w1 :| Steps(step, w, w1, n - 1) && step(w1, w');
      StepsTouch(step, inv, w, w1, n - 1, r);
      if !w'.s.control.Terminated? { TouchesTwice(w, w1, w', r); }
    }
  }

  // A whole resumption of root `r`, from resume() until control is back in it, with whatever
  // completions are posted meanwhile.
  ghost predicate Resumption(code: Code, w: World, r: nat, w': World) {
    && Enabled(DoResume(r), w) && w'.s.control.Idle?
    && exists n: nat :: Steps(Runs(code), Apply(code, DoResume(r), w), w', n)
  }

  ghost function Resumes(code: Code): Resuming { (w, r: nat, w') => Resumption(code, w, r, w') }

  ghost predicate ResumptionIsLocal(resumes: Resuming, inv: World -> bool) {
    forall w, r, w' | inv(w) && resumes(w, r, w') :: inv(w') && OnlyTouches(w, w', r) && w'.s.control.Idle?
  }

  lemma ResumesIsLocal(code: Code)
    ensures ResumptionIsLocal(Resumes(code), w => Inv(w))
  {
    RunsIsLocal(code);
    forall w, r, w' | Inv(w) && Resumes(code)(w, r, w') ensures Inv(w') && OnlyTouches(w, w', r) && w'.s.control.Idle? {
      ResumeKeeps(w, r);
      var w1 := Apply(code, DoResume(r), w);
      var n: nat :| Steps(Runs(code), w1, w', n);
      StepsTouch(Runs(code), x => Inv(x), w1, w', n, r);
    }
  }

  /** TaskLoop::run up to position `i`: `order` lists the roots it resumed. The list may grow under
      the loop, so positions past its first length are visited too; and completions may be posted at
      any time. */
  ghost predicate PassTo(resumes: Resuming, posts: Transition, w0: World, i: nat, order: seq<nat>, w: World)
    decreases i
  {
    if i == 0 then w == w0 && order == [] else
    exists w1, before :: PassTo(resumes, posts, w0, i - 1, before, w1) && Visit(resumes, posts, w1, i, w, before, order)
  }

  ghost predicate Visit(resumes: Resuming, posts: Transition, w: World, i: nat, w': World, before: seq<nat>,
      order: seq<nat>) {
    exists w1 :: posts(w, w1) && VisitAt(resumes, w1, i, w', before, order)
  }

  ghost predicate VisitAt(resumes: Resuming, w: World, i: nat, w': World, before: seq<nat>, order: seq<nat>) {
    && 0 < i <= |w.s.tasks|
    && if Ready(w.s.tasks[i - 1]) then order == before + [i - 1] && resumes(w, i - 1, w')
       else order == before && w' == w
  }

  // The positions below `n` that are ready, in list order.
  ghost function ReadyBelow(ts: seq<ScheduledTask>, n: nat): seq<nat>
    requires n <= |ts|
  {
    if n == 0 then [] else ReadyBelow(ts, n - 1) + (if Ready(ts[n - 1]) then [n - 1] else [])
  }

  ghost function Range(lo: nat, hi: nat): seq<nat> { if lo < hi then Range(lo, hi - 1) + [hi - 1] else [] }

  // What holds after position `i` of a pass.
  ghost predicate PassOk(w0: World, i: nat, order: seq<nat>, w: World) {
    && w.s.control.Idle? && |w0.s.tasks| <= |w.s.tasks| && i <= |w.s.tasks|
    && |w0.past| == |w0.s.tasks| && |w.past| == |w.s.tasks|
    && w0.s.queue <= w.s.queue
    && order == (if i <= |w0.s.tasks| then ReadyBelow(w0.s.tasks, i)
                 else ReadyBelow(w0.s.tasks, |w0.s.tasks|) + Range(|w0.s.tasks|, i))
    && (forall q | 0 <= q < |w0.s.tasks| && q !in order :: w.s.tasks[q] == w0.s.tasks[q] && w.past[q] == w0.past[q])
    && (forall q | i <= q < |w.s.tasks| ::
       if q < |w0.s.tasks| then w.s.tasks[q] == w0.s.tasks[q] else Ready(w.s.tasks[q]))
  }

  lemma {:induction false} PassKeeps(resumes: Resuming, posts: Transition, inv: World -> bool, w0: World, i: nat,
      order: seq<nat>, w: World)
    requires ResumptionIsLocal(resumes, inv) && PostIsLocal(posts, inv)
    requires inv(w0) && w0.s.control.Idle? && |w0.past| == |w0.s.tasks|
    requires PassTo(resumes, posts, w0, i, order, w)
    ensures inv(w) && PassOk(w0, i, order, w)
    decreases i
  {
    if i != 0 {
      var w1, before :| PassTo(resumes, posts, w0, i - 1, before, w1) && Visit(resumes, posts, w1, i, w, before, order);
      PassKeeps(resumes, posts, inv, w0, i - 1, before, w1);
      var w2 :| posts(w1, w2) && VisitAt(resumes, w2, i, w, before, order);
      assert PassOk(w0, i - 1, before, w2);
      if Ready(w2.s.tasks[i - 1]) { PassVisits(w0, i, before, w2, w); } else { PassSkips(w0, i, before, w2); }
    }
  }

  lemma PassVisits(w0: World, i: nat, before: seq<nat>, w1: World, w: World)
    requires 0 < i <= |w1.s.tasks| && PassOk(w0, i - 1, before, w1) && Ready(w1.s.tasks[i - 1])
    requires OnlyTouches(w1, w, i - 1) && w.s.control.Idle?
    ensures PassOk(w0, i, before + [i - 1], w)
  {
    PassAppends(w0, i, before, w1);
    var order := before + [i - 1];
    forall q | 0 <= q < |w0.s.tasks| && q !in order ensures w.s.tasks[q] == w0.s.tasks[q] && w.past[q] == w0.past[q] {
      assert order[|before|] == i - 1;
      assert q !in before;
    }
  }

  lemma PassAppends(w0: World, i: nat, before: seq<nat>, w: World)
    requires 0 < i <= |w.s.tasks| && PassOk(w0, i - 1, before, w) && Ready(w.s.tasks[i - 1])
    ensures before + [i - 1] == (if i <= |w0.s.tasks| then ReadyBelow(w0.s.tasks, i)
                                 else ReadyBelow(w0.s.tasks, |w0.s.tasks|) + Range(|w0.s.tasks|, i))
  {
    if i > |w0.s.tasks| { assert Range(|w0.s.tasks|, i) == Range(|w0.s.tasks|, i - 1) + [i - 1]; }
  }

  lemma PassSkips(w0: World, i: nat, before: seq<nat>, w: World)
    requires 0 < i <= |w.s.tasks| && PassOk(w0, i - 1, before, w) && !Ready(w.s.tasks[i - 1])
    ensures PassOk(w0, i, before, w)
  {}

  /** A pass resumes, in list order and once each, the roots that were ready when it began and then
      every root spawned while it ran; it leaves all others as they were. What the kernel posts
      meanwhile makes no difference. */
  lemma PassOrder(code: Code, w0: World, order: seq<nat>, w: World)
    requires Reachable(code, w0) && w0.s.control.Idle?
    requires PassTo(Resumes(code), Posts(code), w0, |w.s.tasks|, order, w)
    ensures var ts := w0.s.tasks;
      && |ts| <= |w.s.tasks|
      && order == ReadyBelow(ts, |ts|) + Range(|ts|, |w.s.tasks|)
      && forall q | 0 <= q < |ts| && !Ready(ts[q]) :: w.s.tasks[q] == ts[q]
  {
    ReachableInv(code, w0);
    ResumesIsLocal(code);
    PostsIsLocal(code);
    PassKeeps(Resumes(code), Posts(code), x => Inv(x), w0, |w.s.tasks|, order, w);
    NotReadyIsSkipped(w0, order, w);
  }

  lemma NotReadyIsSkipped(w0: World, order: seq<nat>, w: World)
    requires PassOk(w0, |w.s.tasks|, order, w)
    ensures order == ReadyBelow(w0.s.tasks, |w0.s.tasks|) + Range(|w0.s.tasks|, |w.s.tasks|)
    ensures forall q | 0 <= q < |w0.s.tasks| && !Ready(w0.s.tasks[q]) :: w.s.tasks[q] == w0.s.tasks[q]
  {
    assert Range(|w0.s.tasks|, |w0.s.tasks|) == [];
    ReadyOnly(w0.s.tasks, |w0.s.tasks|);
    RangeOnly(|w0.s.tasks|, |w.s.tasks|);
    forall q | 0 <= q < |w0.s.tasks| && !Ready(w0.s.tasks[q]) ensures q !in order {
      assert q !in ReadyBelow(w0.s.tasks, |w0.s.tasks|) && q !in Range(|w0.s.tasks|, |w.s.tasks|);
    }
  }

  lemma {:induction false} ReadyOnly(ts: seq<ScheduledTask>, n: nat)
    requires n <= |ts|
    ensures forall q :: q in ReadyBelow(ts, n) <==> 0 <= q < n && Ready(ts[q])
  {
    if n != 0 { ReadyOnly(ts, n - 1); }
  }

  lemma {:induction false} RangeOnly(lo: nat, hi: nat)
    ensures forall q :: q in Range(lo, hi) <==> lo <= q < hi
    decreases hi
  {
    if lo < hi { RangeOnly(lo, hi - 1); }
  }
}
