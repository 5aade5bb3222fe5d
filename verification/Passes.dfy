/** How long a scheduler pass is: the spawn trees behind a list that grows while it is walked. */
module PassLength {
  import opened Common
  import opened Programs
  import opened Coroutines
  import opened ChainInvariant
  import opened Meaning
  import opened Scheduling
  import opened ResumptionTheorems

  ghost function Children(es: seq<Event>): seq<Local> {
    if es == [] then [] else (if es[0].Spawned? then [es[0].child] else []) + Children(es[1..])
  }

  lemma {:induction false} ChildrenAppend(es: seq<Event>, fs: seq<Event>)
    ensures Children(es + fs) == Children(es) + Children(fs)
  {
    if es == [] {
      assert es + fs == fs;
    } else {
      assert (es + fs)[1..] == es[1..] + fs && (es + fs)[0] == es[0];
      ChildrenAppend(es[1..], fs);
      assert Children(es + fs) == (if es[0].Spawned? then [es[0].child] else []) + (Children(es[1..]) + Children(fs));
    }
  }

  // What a body does up to its first suspension, and what its children do, ends within depth `d`.
  ghost predicate Tame(code: Code, c: Local, n: nat, d: nat)
    decreases d
  {
    && d > 0 && Direct(code, c, [], n).end != OutOfFuel
    && forall i | 0 <= i < |Spawns(code, c, n)| :: Tame(code, Spawns(code, c, n)[i], n, d - 1)
  }

  ghost function Spawns(code: Code, c: Local, n: nat): seq<Local> { Children(Direct(code, c, [], n).trace) }

  ghost predicate AllTame(code: Code, cs: seq<Local>, n: nat, d: nat) {
    forall i | 0 <= i < |cs| :: Tame(code, cs[i], n, d)
  }

  // The number of bodies in the spawn trees of `cs`.
  ghost function Forest(code: Code, cs: seq<Local>, n: nat, d: nat): nat
    decreases d, |cs|
  {
    if d == 0 || cs == [] then 0
    else 1 + Forest(code, Spawns(code, cs[0], n), n, d - 1) + Forest(code, cs[1..], n, d)
  }

  lemma {:induction false} Deeper(code: Code, cs: seq<Local>, n: nat, d: nat)
    requires AllTame(code, cs, n, d)
    ensures AllTame(code, cs, n, d + 1) && Forest(code, cs, n, d + 1) == Forest(code, cs, n, d)
    decreases d, |cs|
  {
    if cs != [] {
      var c := cs[0];
      assert Tame(code, c, n, d);
      assert AllTame(code, Spawns(code, c, n), n, d - 1);
      Deeper(code, Spawns(code, c, n), n, d - 1);
      assert AllTame(code, cs[1..], n, d);
      Deeper(code, cs[1..], n, d);
      forall i | 0 <= i < |cs| ensures Tame(code, cs[i], n, d + 1) {
        if i > 0 { assert cs[i] == cs[1..][i - 1]; assert Tame(code, cs[1..][i - 1], n, d + 1); }
      }
    }
  }

  // What a ready root will spawn when it is resumed, by its sequential reading.
  ghost function Brood(code: Code, p: Past, n: nat): seq<Local> {
    var t := Direct(code, p.start, p.handled, n).trace;
    if |p.log| <= |t| then Children(t[|p.log|..]) else []
  }

  ghost predicate TameRoot(code: Code, p: Past, n: nat, d: nat) {
    Direct(code, p.start, p.handled, n).end != OutOfFuel && AllTame(code, Brood(code, p, n), n, d)
  }

  // The bodies still to be spawned by the ready roots from position `i` on.
  ghost function Future(code: Code, w: World, i: nat, n: nat, d: nat): nat
    requires |w.past| == |w.s.tasks|
    decreases |w.past| - i
  {
    if i >= |w.past| then 0
    else
      (if Ready(w.s.tasks[i]) then Forest(code, Brood(code, w.past[i], n), n, d) else 0) + Future(code, w, i + 1, n, d)
  }

  // Fresh roots for the children `cs`, from position `k` on.
  ghost predicate NewFrom(past: seq<Past>, k: nat, cs: seq<Local>) {
    && |past| == k + |cs|
    && forall j | 0 <= j < |cs| :: Untouched(past[k + j], cs[j])
  }

  ghost predicate Untouched(p: Past, c: Local) { p.start == c && p.handled == [] && p.log == [] }

  ghost predicate Spawning(code: Code, r: nat, c: Local, h: seq<Completion>, log: seq<Event>, k: nat, w: World) {
    && InResumption(code, r, c, h, w) && r < k
    && (!w.s.control.Terminated? ==> log <= w.past[r].log && NewFrom(w.past, k, Children(w.past[r].log[|log|..])))
  }

  lemma WorkHistory(code: Code, w: World, a: Addr, r: nat, log: seq<Event>, k: nat)
    requires Enabled(DoWork(a), w) && w.s.control.root == r < k
    requires log <= w.past[r].log && NewFrom(w.past, k, Children(w.past[r].log[|log|..]))
    ensures var past' := WorkPast(code, w, a);
      r < |past'| && log <= past'[r].log && NewFrom(past', k, Children(past'[r].log[|log|..]))
  {
    var past' := WorkPast(code, w, a);
    var more := Shown(code, w.s);
    assert past'[r].log[|log|..] == w.past[r].log[|log|..] + more;
    ChildrenAppend(w.past[r].log[|log|..], more);
    if |more| == 1 {
      assert more[1..] == [];
      assert Children(more) == if more[0].Spawned? then [more[0].child] else [];
    }
  }

  lemma WorkSpawns(code: Code, r: nat, c: Local, h: seq<Completion>, log: seq<Event>, k: nat, w: World, a: Addr)
    requires Spawning(code, r, c, h, log, k, w) && Enabled(DoWork(a), w)
    ensures Spawning(code, r, c, h, log, k, Apply(code, DoWork(a), w))
  {
    WorkKeepsResuming(code, r, c, h, w, a);
    WorkHistory(code, w, a, r, log, k);
  }

  lemma PostSpawns(code: Code, r: nat, c: Local, h: seq<Completion>, log: seq<Event>, k: nat, w: World, w': World)
    requires Spawning(code, r, c, h, log, k, w) && w.s.control.Running? && PostStep(code, w, w')
    ensures Spawning(code, r, c, h, log, k, w')
  {
    PostKeepsResuming(code, r, c, h, w, w');
    PostOnly(code, w, w');
  }

  /** A resumption appends to the task list exactly the children that the sequential reading of the
      root spawns before it blocks or ends, in that order. */
  lemma ResumptionSpawns(code: Code, w: World, r: nat, w': World, n: nat)
    requires MeaningInv(code, w) && |w.past| == |w.s.tasks| && Resumption(code, w, r, w')
    requires Direct(code, w.past[r].start, w.past[r].handled, n).end != OutOfFuel
    ensures MeaningInv(code, w') && w'.s.control.Idle? && |w'.past| == |w'.s.tasks|
    ensures NewFrom(w'.past, |w.past|, Brood(code, w.past[r], n))
    ensures OnlyTouches(w, w', r) && !Ready(w'.s.tasks[r])
  {
    var p, k, w1 := w.past[r], |w.past|, Apply(code, DoResume(r), w);
    var inv := x => Spawning(code, r, p.start, p.handled, p.log, k, x);
    StepFollows(code, DoResume(r), w);
    assert p.log[|p.log|..] == [];
    assert inv(w1);
    forall x, y | inv(x) && Runs(code)(x, y) ensures inv(y) {
      if WorkStep(code, x, y) {
        var a :| Enabled(DoWork(a), x) && y == Apply(code, DoWork(a), x);
        WorkSpawns(code, r, p.start, p.handled, p.log, k, x, a);
      } else {
        PostSpawns(code, r, p.start, p.handled, p.log, k, x, y);
      }
    }
    var m: nat :| Steps(Runs(code), w1, w', m);
    StepsKeep(Runs(code), inv, w1, w', m);
    ResumesIsLocal(code);
    assert Resumes(code)(w, r, w');
    ParkedHasEnded(code, w', r);
    DirectIsDeterministic(code, p.start, p.handled, n, w'.past[r].steps);
  }

  // Every root from position `i` on that is ready has a finite spawn tree.
  ghost predicate TameFrom(code: Code, w: World, i: nat, n: nat, d: nat) {
    |w.past| == |w.s.tasks| && forall q | i <= q < |w.past| && Ready(w.s.tasks[q]) :: TameRoot(code, w.past[q], n, d)
  }

  lemma {:induction false} FutureSame(code: Code, w: World, w': World, i: nat, k: nat, n: nat, d: nat)
    requires |w.past| == |w.s.tasks| == k && |w'.past| == |w'.s.tasks| && i <= k <= |w'.past|
    requires forall q | i <= q < k :: w'.s.tasks[q] == w.s.tasks[q] && w'.past[q] == w.past[q]
    ensures Future(code, w', i, n, d) == Future(code, w, i, n, d) + Future(code, w', k, n, d)
    decreases k - i
  {
    if i < k { FutureSame(code, w, w', i + 1, k, n, d); }
  }

  // A fresh root counts for itself in its parent's brood, and for its children once it is a root.
  lemma BroodOfNew(code: Code, p: Past, c: Local, n: nat, d: nat)
    requires Untouched(p, c) && Tame(code, c, n, d)
    ensures TameRoot(code, p, n, d)
      && Forest(code, Brood(code, p, n), n, d) == Forest(code, Spawns(code, c, n), n, d - 1)
  {
    assert AllTame(code, Spawns(code, c, n), n, d - 1);
    Deeper(code, Spawns(code, c, n), n, d - 1);
    var t := Direct(code, c, [], n).trace;
    assert t[|p.log|..] == t;
  }

  lemma {:induction false} FutureOfNew(code: Code, w: World, k: nat, cs: seq<Local>, n: nat, d: nat)
    requires |w.past| == |w.s.tasks| && NewFrom(w.past, k, cs) && AllTame(code, cs, n, d)
    requires forall q | k <= q < |w.past| :: Ready(w.s.tasks[q])
    ensures TameFrom(code, w, k, n, d) && Future(code, w, k, n, d) + |cs| == Forest(code, cs, n, d)
    decreases |cs|
  {
    if cs != [] {
      assert Tame(code, cs[0], n, d);
      assert Untouched(w.past[k + 0], cs[0]);
      BroodOfNew(code, w.past[k], cs[0], n, d);
      TailIsNew(code, w.past, k, cs, n, d);
      FutureOfNew(code, w, k + 1, cs[1..], n, d);
      TameFromNext(code, w, k, n, d);
    }
  }

  lemma TameFromNext(code: Code, w: World, k: nat, n: nat, d: nat)
    requires k < |w.past| && TameRoot(code, w.past[k], n, d) && TameFrom(code, w, k + 1, n, d)
    ensures TameFrom(code, w, k, n, d)
  {}

  lemma TailIsNew(code: Code, past: seq<Past>, k: nat, cs: seq<Local>, n: nat, d: nat)
    requires NewFrom(past, k, cs) && AllTame(code, cs, n, d) && cs != []
    ensures NewFrom(past, k + 1, cs[1..]) && AllTame(code, cs[1..], n, d)
  {
    forall j | 0 <= j < |cs[1..]| ensures Untouched(past[k + 1 + j], cs[1..][j]) && Tame(code, cs[1..][j], n, d) {
      assert Untouched(past[k + (j + 1)], cs[j + 1]);
    }
  }

  ghost predicate Counted(code: Code, w0: World, i: nat, w: World, n: nat, d: nat)
    requires |w0.past| == |w0.s.tasks|
  {
    && MeaningInv(code, w) && w.s.control.Idle? && TameFrom(code, w, i, n, d)
    && |w.s.tasks| + Future(code, w, i, n, d) == |w0.past| + Future(code, w0, 0, n, d)
  }

  lemma PostedCounts(code: Code, w0: World, i: nat, w1: World, w: World, n: nat, d: nat)
    requires |w0.past| == |w0.s.tasks| && Counted(code, w0, i, w1, n, d) && Posts(code)(w1, w)
    ensures Counted(code, w0, i, w, n, d)
  {
    PostedKeepsMeaning(code, w1, w);
    PostsIsLocal(code);
    assert OnlyPosts(w1, w);
    SameFuture(code, w1, w, i, n, d);
  }

  lemma PostedKeepsMeaning(code: Code, w: World, w': World)
    requires MeaningInv(code, w) && Posts(code)(w, w')
    ensures MeaningInv(code, w')
  {
    var inv := x => MeaningInv(code, x);
    forall x, y | inv(x) && PostSteps(code)(x, y) ensures inv(y) {
      var a, z :| Enabled(DoComplete(a, z), x) && y == Apply(code, DoComplete(a, z), x);
      StepFollows(code, DoComplete(a, z), x);
    }
    var n: nat :| Steps(PostSteps(code), w, w', n);
    StepsKeep(PostSteps(code), inv, w, w', n);
  }

  lemma {:induction false} SameFuture(code: Code, w: World, w': World, i: nat, n: nat, d: nat)
    requires |w.past| == |w.s.tasks| && w'.past == w.past && w'.s.tasks == w.s.tasks
    ensures Future(code, w', i, n, d) == Future(code, w, i, n, d)
    decreases |w.past| - i
  {
    if i < |w.past| { SameFuture(code, w, w', i + 1, n, d); }
  }

  lemma VisitCounts(code: Code, w0: World, i: nat, before: seq<nat>, w1: World, order: seq<nat>, w: World, n: nat,
      d: nat)
    requires |w0.past| == |w0.s.tasks| && 0 < i && Counted(code, w0, i - 1, w1, n, d)
    requires VisitAt(Resumes(code), w1, i, w, before, order)
    ensures Counted(code, w0, i, w, n, d)
  {
    if Ready(w1.s.tasks[i - 1]) {
      var r, k := i - 1, |w1.past|;
      assert TameRoot(code, w1.past[r], n, d);
      ResumptionSpawns(code, w1, r, w, n);
      var cs := Brood(code, w1.past[r], n);
      FutureOfNew(code, w, k, cs, n, d);
      FutureSame(code, w1, w, i, k, n, d);
      assert Future(code, w1, k, n, d) == 0;
    }
  }

  lemma {:induction false} PassCounts(code: Code, w0: World, i: nat, order: seq<nat>, w: World, n: nat, d: nat)
    requires MeaningInv(code, w0) && w0.s.control.Idle? && TameFrom(code, w0, 0, n, d)
    requires PassTo(Resumes(code), Posts(code), w0, i, order, w)
    ensures Counted(code, w0, i, w, n, d)
    decreases i
  {
    if i != 0 {
      var w1, before :| PassTo(Resumes(code), Posts(code), w0, i - 1, before, w1)
                        && Visit(Resumes(code), Posts(code), w1, i, w, before, order);
      PassCounts(code, w0, i - 1, before, w1, n, d);
      AnyVisitCounts(code, w0, i, before, w1, order, w, n, d);
    }
  }

  lemma AnyVisitCounts(code: Code, w0: World, i: nat, before: seq<nat>, w1: World, order: seq<nat>, w: World,
      n: nat, d: nat)
    requires |w0.past| == |w0.s.tasks| && 0 < i && Counted(code, w0, i - 1, w1, n, d)
    requires Visit(Resumes(code), Posts(code), w1, i, w, before, order)
    ensures Counted(code, w0, i, w, n, d)
  {
    var w2 :| Posts(code)(w1, w2) && VisitAt(Resumes(code), w2, i, w, before, order);
    PostedCounts(code, w0, i - 1, w1, w2, n, d);
    VisitCounts(code, w0, i, before, w2, order, w, n, d);
  }

  /** The list grows under the loop, but by a known amount: after any part of a pass the tasks there
      are, plus those the rest of the pass will add, are the tasks there were plus the spawn trees of
      the roots that were ready. So a pass has at most that many positions, and ends with exactly
      that many tasks. */
  lemma PassIsFinite(code: Code, w0: World, i: nat, order: seq<nat>, w: World, n: nat, d: nat)
    requires Reachable(code, w0) && w0.s.control.Idle? && TameFrom(code, w0, 0, n, d)
    requires PassTo(Resumes(code), Posts(code), w0, i, order, w)
    ensures var total := |w0.past| + Future(code, w0, 0, n, d);
      && i <= |w.s.tasks| <= total
      && (i == |w.s.tasks| ==> |w.s.tasks| == total)
  {
    ReachableMeaning(code, w0);
    PassCounts(code, w0, i, order, w, n, d);
    ResumesIsLocal(code);
    PostsIsLocal(code);
    PassKeeps(Resumes(code), Posts(code), x => Inv(x), w0, i, order, w);
  }

  // -- Every pass comes to its end

  // The pass goes on from position `i` to position `i'`.
  ghost predicate PassOn(resumes: Resuming, posts: Transition, w: World, i: nat, order: seq<nat>, w': World, i': nat,
      order': seq<nat>)
    decreases i'
  {
    if i' <= i then i' == i && w' == w && order' == order else
    exists w1, before :: PassOn(resumes, posts, w, i, order, w1, i' - 1, before)
      && Visit(resumes, posts, w1, i', w', before, order')
  }

  lemma {:induction false} PassesJoin(resumes: Resuming, posts: Transition, w0: World, i: nat, order: seq<nat>,
      w: World, i': nat, order': seq<nat>, w': World)
    requires PassTo(resumes, posts, w0, i, order, w) && PassOn(resumes, posts, w, i, order, w', i', order')
    ensures PassTo(resumes, posts, w0, i', order', w')
    decreases i'
  {
    if i' > i {
      var w1, before :| PassOn(resumes, posts, w, i, order, w1, i' - 1, before)
        && Visit(resumes, posts, w1, i', w', before, order');
      PassesJoin(resumes, posts, w0, i, order, w, i' - 1, before, w1);
    }
  }

  lemma PassOnOnce(resumes: Resuming, posts: Transition, w: World, i: nat, order: seq<nat>, w1: World, i1: nat,
      before: seq<nat>, w': World, order': seq<nat>)
    requires PassOn(resumes, posts, w, i, order, w1, i1, before) && i <= i1
      && Visit(resumes, posts, w1, i1 + 1, w', before, order')
    ensures PassOn(resumes, posts, w, i, order, w', i1 + 1, order')
  {
    assert PassOn(resumes, posts, w, i, order, w1, (i1 + 1) - 1, before);
  }

  // The resumption of root `r` may end with an exception that escapes it.
  ghost predicate Escapes(code: Code, w: World, r: nat) {
    && Enabled(DoResume(r), w)
    && exists w', n: nat :: Steps(Runs(code), Apply(code, DoResume(r), w), w', n) && w'.s.control.Terminated?
  }

  // One more position, unless an exception escapes there.
  lemma NextVisit(code: Code, w0: World, i: nat, order: seq<nat>, w: World, n: nat, d: nat)
    returns (w': World, order': seq<nat>)
    requires |w0.past| == |w0.s.tasks| && Counted(code, w0, i, w, n, d) && i < |w.s.tasks|
    ensures Escapes(code, w, i) || Visit(Resumes(code), Posts(code), w, i + 1, w', order, order')
  {
    NothingPosted(code, w);
    if !Ready(w.s.tasks[i]) {
      w', order' := w, order;
      assert VisitAt(Resumes(code), w, i + 1, w', order, order');
    } else {
      assert TameRoot(code, w.past[i], n, d);
      order' := order + [i];
      var m;
      w', m := EndedMeansBack(code, w, i);
      WholeResumptionEnds(code, w, i, w', m);
      if !Escapes(code, w, i) { assert VisitAt(Resumes(code), w, i + 1, w', order, order'); }
    }
  }

  lemma WholeResumptionEnds(code: Code, w: World, r: nat, w': World, n: nat)
    requires MeaningInv(code, w) && Enabled(DoResume(r), w) && |w.past| == |w.s.tasks|
    requires Steps(Runs(code), Apply(code, DoResume(r), w), w', n) && !w'.s.control.Running?
    ensures Escapes(code, w, r) || Resumes(code)(w, r, w')
  {
    var w1 := Apply(code, DoResume(r), w);
    StepFollows(code, DoResume(r), w);
    WholeResumptionKeeps(code, r, w.past[r].start, w.past[r].handled, w1, w', n);
    if w'.s.control.Idle? { assert Resumption(code, w, r, w'); }
  }

  /** With finite spawn trees and bodies that end or block, every part of a pass can be carried on to
      the end of the list, unless an exception escapes a root on the way; and by PassIsFinite and
      ResumptionIsBounded there is no going on for ever. */
  lemma PassEnds(code: Code, w0: World, i: nat, order: seq<nat>, w: World, n: nat, d: nat)
    returns (i': nat, order': seq<nat>, w': World)
    requires Reachable(code, w0) && w0.s.control.Idle? && TameFrom(code, w0, 0, n, d)
    requires PassTo(Resumes(code), Posts(code), w0, i, order, w)
    ensures i <= i' && PassOn(Resumes(code), Posts(code), w, i, order, w', i', order')
    ensures PassTo(Resumes(code), Posts(code), w0, i', order', w')
    ensures i' == |w'.s.tasks| || Escapes(code, w', i')
  {
    var total := |w0.past| + Future(code, w0, 0, n, d);
    ReachableMeaning(code, w0);
    i', order', w' := i, order, w;
    PassIsFinite(code, w0, i, order, w, n, d);
    while i' < |w'.s.tasks| && !Escapes(code, w', i')
      invariant i <= i' <= |w'.s.tasks| <= total
      invariant PassOn(Resumes(code), Posts(code), w, i, order, w', i', order')
      invariant PassTo(Resumes(code), Posts(code), w0, i', order', w')
      decreases total - i'
    {
      i', order', w' := PassOnce(code, w0, i, order, w, i', order', w', n, d);
    }
  }

  lemma PassOnce(code: Code, w0: World, i: nat, order: seq<nat>, w: World, i1: nat, before: seq<nat>, w1: World,
      n: nat, d: nat)
    returns (i': nat, order': seq<nat>, w': World)
    requires Reachable(code, w0) && w0.s.control.Idle? && TameFrom(code, w0, 0, n, d)
    requires PassTo(Resumes(code), Posts(code), w0, i, order, w) && i <= i1 < |w1.s.tasks| && !Escapes(code, w1, i1)
    requires PassOn(Resumes(code), Posts(code), w, i, order, w1, i1, before)
      && PassTo(Resumes(code), Posts(code), w0, i1, before, w1)
    ensures i' == i1 + 1 && PassOn(Resumes(code), Posts(code), w, i, order, w', i', order')
    ensures PassTo(Resumes(code), Posts(code), w0, i', order', w')
    ensures i' <= |w'.s.tasks| <= |w0.past| + Future(code, w0, 0, n, d)
  {
    ReachableMeaning(code, w0);
    PassCounts(code, w0, i1, before, w1, n, d);
    w', order' := NextVisit(code, w0, i1, before, w1, n, d);
    i' := PassExtends(Resumes(code), Posts(code), w0, i, order, w, i1, before, w1, order', w');
    PassIsFinite(code, w0, i', order', w', n, d);
  }

  lemma PassExtends(resumes: Resuming, posts: Transition, w0: World, i: nat, order: seq<nat>, w: World, i1: nat,
      before: seq<nat>, w1: World, order': seq<nat>, w': World)
    returns (i': nat)
    requires PassTo(resumes, posts, w0, i, order, w) && PassOn(resumes, posts, w, i, order, w1, i1, before) && i <= i1
    requires Visit(resumes, posts, w1, i1 + 1, w', before, order')
    ensures i' == i1 + 1 && PassOn(resumes, posts, w, i, order, w', i', order')
      && PassTo(resumes, posts, w0, i', order', w')
  {
    PassOnOnce(resumes, posts, w, i, order, w1, i1, before, w', order');
    i' := i1 + 1;
    PassesJoin(resumes, posts, w0, i, order, w, i', order', w');
  }
}
