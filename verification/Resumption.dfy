/** When a resumption comes back to the scheduler, and what it spawned. */
module ResumptionTheorems {
  import opened Common
  import opened Programs
  import opened Chains
  import opened Coroutines
  import opened ChainInvariant
  import opened Meaning
  import opened Scheduling

  // A root that keeps control after a piece of work is in the middle of a body.
  lemma StillInABody(code: Code, w: World, a: Addr, r: nat, f: Addr, p: Past)
    requires AtWork(w, r, f, p) && Enabled(DoWork(a), w)
    requires Apply(code, DoWork(a), w).s.control.Running?
    ensures var s' := Apply(code, DoWork(a), w).s;
      s'.control.frame in s'.frames && s'.frames[s'.control.frame].point.Body? && s'.control.root == r
  {
    LeafIsRunning(w, r, f, p);
    match w.s.frames[f].point
    case InIo(_, _) =>
    case Body(c) =>
      match code(c) {
        case Return(v) => if |p.chain| > 1 { JoinEffect(w, r, f, p, Returned(v)); }
        case Throw(e) => if |p.chain| > 1 { JoinEffect(w, r, f, p, Raised(e)); }
        case _ =>
      }
  }

  // The running root is in a body, and stands where `n` moves have brought the configuration `cfg`.
  ghost predicate InBodyAt(code: Code, w: World, r: nat, cfg: Config, n: nat) {
    && Inv(w) && w.s.control.Running? && w.s.control.root == r < |w.past|
    && w.s.control.frame in w.s.frames && w.s.frames[w.s.control.frame].point.Body?
    && Shape(w.s.frames, r, w.past[r].chain)
    && ConfigOf(w.s.frames, r, w.past[r].chain) == Settle(code, cfg, n).after
  }

  lemma OneMove(code: Code, w: World, r: nat, cfg: Config, n: nat, a: Addr)
    requires InBodyAt(code, w, r, cfg, n) && Enabled(DoWork(a), w)
    ensures var w' := Apply(code, DoWork(a), w);
      Inv(w') && (w'.s.control.Running? ==> InBodyAt(code, w', r, cfg, n + 1))
  {
    var w' := Apply(code, DoWork(a), w);
    WorkKeeps(code, w, a);
    if w'.s.control.Running? {
      LeafIsRunning(w, r, w.s.control.frame, w.past[r]);
      WorkIsMove(code, w, a, r, w.s.control.frame, w.past[r]);
      StillInABody(code, w, a, r, w.s.control.frame, w.past[r]);
      SettleOnce(code, cfg, n);
    }
  }

  lemma SomeMove(code: Code, w: World, r: nat, cfg: Config, n: nat) returns (w': World)
    requires InBodyAt(code, w, r, cfg, n)
    ensures Works(code)(w, w') && (w'.s.control.Running? ==> InBodyAt(code, w', r, cfg, n + 1))
  {
    var a := Unused(w.s.frames.Keys);
    OneMove(code, w, r, cfg, n, a);
    w' := Apply(code, DoWork(a), w);
  }

  lemma StillMoving(code: Code, w: World, r: nat, cfg: Config, n: nat)
    requires InBodyAt(code, w, r, cfg, n)
    ensures Settle(code, cfg, n).after.now.AtCode?
  {
    LeafIsRunning(w, r, w.s.control.frame, w.past[r]);
  }

  lemma SettleOnce(code: Code, cfg: Config, n: nat)
    requires Settle(code, cfg, n).after.now.AtCode?
    ensures Settle(code, cfg, n + 1).after == Next(code, Settle(code, cfg, n).after, NO_COMPLETION).after
  {
    SettleSplit(code, cfg, n, 1);
    var c1 := Settle(code, cfg, n).after;
    assert Settle(code, Next(code, c1, NO_COMPLETION).after, 0).after == Next(code, c1, NO_COMPLETION).after;
  }

  // Some transition is possible, and if control stays it leads from stage `n` to the next.
  ghost predicate GoesOn(step: Transition, at: (World, nat) -> bool, w: World, n: nat) {
    exists w' :: step(w, w') && (w'.s.control.Running? ==> at(w', n + 1))
  }

  lemma {:induction false} GoesOnTo(step: Transition, at: (World, nat) -> bool, w: World, m: nat)
    returns (w': World, n: nat)
    requires at(w, 0) && forall x, j: nat | at(x, j) :: GoesOn(step, at, x, j)
    ensures Steps(step, w, w', n) && (!w'.s.control.Running? || (n == m && at(w', m)))
    decreases m
  {
    if m == 0 {
      w', n := w, 0;
    } else {
      w', n := GoesOnTo(step, at, w, m - 1);
      if w'.s.control.Running? {
        assert GoesOn(step, at, w', m - 1);
        var w1 :| step(w', w1) && (w1.s.control.Running? ==> at(w1, m));
        assert Steps(step, w, w1, m);
        w', n := w1, m;
      }
    }
  }

  lemma WorksUntilSettled(code: Code, w: World, r: nat, cfg: Config, m: nat) returns (w': World, n: nat)
    requires InBodyAt(code, w, r, cfg, 0) && !Settle(code, cfg, m).after.now.AtCode?
    ensures Steps(Works(code), w, w', n) && !w'.s.control.Running?
  {
    var at := (x: World, j: nat) => InBodyAt(code, x, r, cfg, j);
    forall x, j: nat | at(x, j) ensures GoesOn(Works(code), at, x, j) {
      var x' := SomeMove(code, x, r, cfg, j);
    }
    w', n := GoesOnTo(Works(code), at, w, m);
    if w'.s.control.Running? { StillMoving(code, w', r, cfg, m); }
  }

  ghost predicate DirectEnds(code: Code, c: Local, ins: seq<Completion>) {
    exists n: nat :: Direct(code, c, ins, n).end != OutOfFuel
  }

  ghost predicate DirectRaises(code: Code, c: Local, ins: seq<Completion>) {
    exists n: nat :: Raises(Direct(code, c, ins, n).end)
  }

  predicate Raises(e: End) { e.Done? && e.outcome.Raised? }

  // What a resumption of `r` keeps: the meaning of every chain, the root's start and its completions.
  ghost predicate InResumption(code: Code, r: nat, c: Local, h: seq<Completion>, w: World) {
    && MeaningInv(code, w) && r < |w.past| && w.past[r].start == c && w.past[r].handled == h
    && (w.s.control.Running? ==> w.s.control.root == r)
    && (w.s.control.Terminated? ==> DirectRaises(code, c, h))
    && (w.s.control.Idle? ==> r < |w.s.tasks| && !Ready(w.s.tasks[r]))
  }

  // Control goes back to the scheduler with the root pending or finished.
  lemma NotReadyWhenBack(code: Code, w: World, a: Addr)
    requires Inv(w) && Enabled(DoWork(a), w)
    ensures var s', r := Apply(code, DoWork(a), w).s, w.s.control.root;
      s'.control.Idle? ==> r < |s'.tasks| && !Ready(s'.tasks[r])
  {
    var r, f := w.s.control.root, w.s.control.frame;
    var p := w.past[r];
    LeafIsRunning(w, r, f, p);
    match w.s.frames[f].point
    case InIo(_, _) =>
    case Body(c) =>
      match code(c) {
        case Return(v) => if |p.chain| > 1 { JoinEffect(w, r, f, p, Returned(v)); }
        case Throw(e) => if |p.chain| > 1 { JoinEffect(w, r, f, p, Raised(e)); }
        case _ =>
      }
  }

  lemma WorkKeepsResuming(code: Code, r: nat, c: Local, h: seq<Completion>, w: World, a: Addr)
    requires InResumption(code, r, c, h, w) && Enabled(DoWork(a), w)
    ensures InResumption(code, r, c, h, Apply(code, DoWork(a), w))
  {
    var f, w' := w.s.control.frame, Apply(code, DoWork(a), w);
    WorkFollows(code, w, a);
    LeafIsRunning(w, r, f, w.past[r]);
    if w'.s.control.Terminated? {
      ExceptionEscapes(code, w, a, r);
    } else {
      WorkTouches(code, w, a);
      NotReadyWhenBack(code, w, a);
    }
  }

  // An exception that escapes a root is the one its sequential reading ends with.
  lemma ExceptionEscapes(code: Code, w: World, a: Addr, r: nat)
    requires MeaningInv(code, w) && Enabled(DoWork(a), w) && w.s.control.root == r
    requires Apply(code, DoWork(a), w).s.control.Terminated?
    ensures var p := w.past[r];
      && p.handled == p.got
      && exists e :: Direct(code, p.start, p.handled, p.steps + 1) == Run(p.log, Done(Raised(e)), [])
  {
    var f, p := w.s.control.frame, w.past[r];
    LeafIsRunning(w, r, f, p);
    if |p.chain| > 1 {
      match w.s.frames[f].point
      case InIo(_, _) =>
      case Body(c) =>
        match code(c) {
          case Return(v) => JoinEffect(w, r, f, p, Returned(v));
          case Throw(e) => JoinEffect(w, r, f, p, Raised(e));
          case _ =>
        }
    }
    var c := w.s.frames[f].point.at;
    var e := code(c).exn;
    var cfg := ConfigOf(w.s.frames, r, p.chain);
    assert cfg == Config(AtCode(c), []);
    assert RootFollows(code, w, r);
    assert Eval(code, cfg, [], 1) == Run([], Done(Raised(e)), []);
    assert p.got + [] == p.got && p.log + [] == p.log && 1 + p.steps == p.steps + 1;
  }

  lemma {:induction false} StepsKeep(step: Transition, inv: World -> bool, w: World, w': World, n: nat)
    requires Steps(step, w, w', n) && inv(w) && forall x, y | inv(x) && step(x, y) :: inv(y)
    ensures inv(w')
    decreases n
  {
    if n != 0 {
      var w1 :| Steps(step, w, w1, n - 1) && step(w1, w');
      StepsKeep(step, inv, w, w1, n - 1);
    }
  }

  lemma {:induction false} StepsJoin(step: Transition, w: World, w1: World, w2: World, n: nat, m: nat)
    requires Steps(step, w, w1, n) && Steps(step, w1, w2, m)
    ensures Steps(step, w, w2, n + m)
    decreases m
  {
    if m != 0 {
      var w3 :| Steps(step, w1, w3, m - 1) && step(w3, w2);
      StepsJoin(step, w, w1, w3, n, m - 1);
    }
  }

  lemma PostKeepsResuming(code: Code, r: nat, c: Local, h: seq<Completion>, w: World, w': World)
    requires InResumption(code, r, c, h, w) && w.s.control.Running? && PostStep(code, w, w')
    ensures InResumption(code, r, c, h, w')
  {
    PostOnly(code, w, w');
    var a, x :| Enabled(DoComplete(a, x), w) && w' == Apply(code, DoComplete(a, x), w);
    StepFollows(code, DoComplete(a, x), w);
  }

  lemma WholeResumptionKeeps(code: Code, r: nat, c: Local, h: seq<Completion>, w: World, w': World, n: nat)
    requires InResumption(code, r, c, h, w) && Steps(Runs(code), w, w', n)
    ensures InResumption(code, r, c, h, w')
  {
    var inv := x => InResumption(code, r, c, h, x);
    forall x, y | inv(x) && Runs(code)(x, y) ensures inv(y) {
      if WorkStep(code, x, y) {
        var a :| Enabled(DoWork(a), x) && y == Apply(code, DoWork(a), x);
        WorkKeepsResuming(code, r, c, h, x, a);
      } else {
        PostKeepsResuming(code, r, c, h, x, y);
      }
    }
    StepsKeep(Runs(code), inv, w, w', n);
  }

  lemma {:induction false} StepsInclude(step: Transition, other: Transition, w: World, w': World, n: nat)
    requires Steps(step, w, w', n) && forall x, y | step(x, y) :: other(x, y)
    ensures Steps(other, w, w', n)
    decreases n
  {
    if n != 0 {
      var w1 :| Steps(step, w, w1, n - 1) && step(w1, w');
      StepsInclude(step, other, w, w1, n - 1);
    }
  }

  lemma JoinIncluded(step: Transition, other: Transition, w: World, w1: World, w2: World, n: nat, m: nat)
    returns (k: nat)
    requires Steps(step, w, w1, n) && Steps(step, w1, w2, m) && forall x, y | step(x, y) :: other(x, y)
    ensures Steps(other, w, w2, k)
  {
    StepsJoin(step, w, w1, w2, n, m);
    k := n + m;
    StepsInclude(step, other, w, w2, k);
  }

  // Work alone is one way a root can run.
  lemma WorksAreRuns(code: Code)
    ensures forall x, y | Works(code)(x, y) :: Runs(code)(x, y)
  {}

  // resume() takes a ready root into a body, reading the completion it was woken by, if any.
  lemma EntersBody(code: Code, w: World, r: nat) returns (w2: World, cfg: Config, n: nat)
    requires MeaningInv(code, w) && Enabled(DoResume(r), w) && |w.past| == |w.s.tasks|
    ensures Steps(Works(code), Apply(code, DoResume(r), w), w2, n)
    ensures InBodyAt(code, w2, r, cfg, 0) && RootFollows(code, w2, r)
    ensures cfg == ConfigOf(w2.s.frames, r, w2.past[r].chain)
    ensures w2.past[r].start == w.past[r].start && w2.past[r].got == w.past[r].handled
    ensures var w1 := Apply(code, DoResume(r), w);
      w1.s.control.frame in w1.s.frames && if w1.s.frames[w1.s.control.frame].point.InIo?
        then AboutToRead(code, w1, r, cfg) else w2 == w1
  {
    var w1 := Apply(code, DoResume(r), w);
    StepFollows(code, DoResume(r), w);
    assert RootOk(w, r);
    LeafIsRunning(w1, r, w1.s.control.frame, w1.past[r]);
    w2, n := w1, 0;
    if w1.s.frames[w1.s.control.frame].point.InIo? {
      var a := Unused(w1.s.frames.Keys);
      WorkFollows(code, w1, a);
      w2, n := Apply(code, DoWork(a), w1), 1;
      assert Works(code)(w1, w2) && Steps(Works(code), w1, w1, 0);
      WorkIsMove(code, w1, a, r, w1.s.control.frame, w1.past[r]);
    }
    assert RootFollows(code, w2, r);
    cfg := ConfigOf(w2.s.frames, r, w2.past[r].chain);
  }

  /** ScheduledTask::resume comes back (or an exception escapes the root) exactly when the root's
      sequential reading, given the completions handled so far, comes to an end or blocks. */
  lemma ResumptionReturnsIff(code: Code, w: World, r: nat)
    requires Reachable(code, w) && Enabled(DoResume(r), w)
    ensures r < |w.past|
    ensures ComesBack(code, Apply(code, DoResume(r), w)) <==> DirectEnds(code, w.past[r].start, w.past[r].handled)
  {
    ReachableMeaning(code, w);
    if ComesBack(code, Apply(code, DoResume(r), w)) { BackMeansEnded(code, w, r); }
    if DirectEnds(code, w.past[r].start, w.past[r].handled) { var w', n := EndedMeansBack(code, w, r); }
  }

  /** The process ends in a resumption exactly when the root's sequential reading ends with an exception:
      none that escapes a root is lost, whichever root it is, and nothing else ends the process. */
  lemma ExceptionEndsProcessIff(code: Code, w: World, r: nat, w': World, n: nat)
    requires Reachable(code, w) && Enabled(DoResume(r), w)
    requires Steps(Runs(code), Apply(code, DoResume(r), w), w', n) && !w'.s.control.Running?
    ensures r < |w.past|
    ensures w'.s.control.Terminated? <==> DirectRaises(code, w.past[r].start, w.past[r].handled)
    ensures w'.s.control.Idle? || w'.s.control.Terminated?
  {
    ReachableMeaning(code, w);
    StepFollows(code, DoResume(r), w);
    var c, h := w.past[r].start, w.past[r].handled;
    WholeResumptionKeeps(code, r, c, h, Apply(code, DoResume(r), w), w', n);
    if w'.s.control.Idle? {
      ParkedHasEnded(code, w', r);
      forall m: nat ensures !Raises(Direct(code, c, h, m).end) {
        if Raises(Direct(code, c, h, m).end) { DirectIsDeterministic(code, c, h, m, w'.past[r].steps); }
      }
    }
  }

  /** So a root that has ended has returned a value, in every state of every run. */
  lemma FinishedHasReturned(code: Code, w: World, r: nat)
    requires Reachable(code, w) && r < |w.s.tasks| && !w.s.tasks[r].valid
    requires w.s.control.Idle? || w.s.control.Running?
    ensures |w.past| == |w.s.tasks|
    ensures var p := w.past[r];
      exists v :: Direct(code, p.start, p.handled, p.steps) == Run(p.log, Done(Returned(v)), [])
  {
    ReachableMeaning(code, w);
    assert RootOk(w, r);
    MeaningPreserved(code, w, r);
    assert w.s.frames[w.s.tasks[r].task].point.outcome == Returned(w.s.frames[w.s.tasks[r].task].point.outcome.value);
  }

  ghost predicate ComesBack(code: Code, w: World) {
    exists w', n: nat :: Steps(Runs(code), w, w', n) && !w'.s.control.Running?
  }

  lemma BackMeansEnded(code: Code, w: World, r: nat)
    requires MeaningInv(code, w) && Enabled(DoResume(r), w) && |w.past| == |w.s.tasks|
    requires ComesBack(code, Apply(code, DoResume(r), w))
    ensures DirectEnds(code, w.past[r].start, w.past[r].handled)
  {
    var w1 := Apply(code, DoResume(r), w);
    StepFollows(code, DoResume(r), w);
    var w', n: nat :| Steps(Runs(code), w1, w', n) && !w'.s.control.Running?;
    WholeResumptionKeeps(code, r, w.past[r].start, w.past[r].handled, w1, w', n);
    if w'.s.control.Idle? { ParkedHasEnded(code, w', r); }
  }

  lemma ParkedHasEnded(code: Code, w: World, r: nat)
    requires MeaningInv(code, w) && w.s.control.Idle? && r < |w.s.tasks| && !Ready(w.s.tasks[r])
    ensures |w.past| == |w.s.tasks| && w.past[r].got == w.past[r].handled
    ensures Direct(code, w.past[r].start, w.past[r].handled, w.past[r].steps).end != OutOfFuel
    ensures Direct(code, w.past[r].start, w.past[r].handled, w.past[r].steps).trace == w.past[r].log
    ensures !Raises(Direct(code, w.past[r].start, w.past[r].handled, w.past[r].steps).end)
  {
    assert RootOk(w, r) && RootFollows(code, w, r);
    SettledMeaning(code, w.past[r], ConfigOf(w.s.frames, r, w.past[r].chain));
  }

  lemma EndedMeansBack(code: Code, w: World, r: nat) returns (w': World, n: nat)
    requires MeaningInv(code, w) && Enabled(DoResume(r), w) && |w.past| == |w.s.tasks|
    requires DirectEnds(code, w.past[r].start, w.past[r].handled)
    ensures Steps(Runs(code), Apply(code, DoResume(r), w), w', n) && !w'.s.control.Running?
  {
    var w2, cfg, n0 := EntersBody(code, w, r);
    var m := ConfigSettles(code, w2.past[r], cfg, w.past[r].handled);
    var n1: nat;
    w', n1 := WorksUntilSettled(code, w2, r, cfg, m);
    WorksAreRuns(code);
    n := JoinIncluded(Works(code), Runs(code), Apply(code, DoResume(r), w), w2, w', n0, n1);
  }

  lemma ConfigSettles(code: Code, p: Past, cfg: Config, h: seq<Completion>) returns (m: nat)
    requires Follows(code, p, cfg) && DirectEnds(code, p.start, h) && p.got == h
    ensures !Settle(code, cfg, m).after.now.AtCode?
  {
    assert p.got + [] == h;
    assert Ends(code, cfg, []);
    var j: nat :| Eval(code, cfg, [], j).end != OutOfFuel;
    m := EvaluatedSettles(code, cfg, j);
  }

  // -- How long a resumption can be

  // The running root is about to read the completion it was woken by, which takes it to `cfg`.
  ghost predicate AboutToRead(code: Code, w: World, r: nat, cfg: Config) {
    && Inv(w) && w.s.control.Running? && w.s.control.root == r < |w.past|
    && w.s.control.frame in w.s.frames && w.s.frames[w.s.control.frame].point.InIo?
    && Shape(w.s.frames, r, w.past[r].chain) && w.past[r].chain[0] == w.s.control.frame
    && Next(code, ConfigOf(w.s.frames, r, w.past[r].chain), w.s.frames[w.s.control.frame].point.token.with).after == cfg
  }

  // The running root has at most `k` pieces of work to do, as its configuration settles in `m` moves.
  ghost predicate Left(code: Code, r: nat, cfg: Config, m: nat, w: World, k: nat) {
    if k == m + 1 then AboutToRead(code, w, r, cfg) else k <= m && InBodyAt(code, w, r, cfg, m - k)
  }

  lemma WorkDecreases(code: Code, r: nat, cfg: Config, m: nat, w: World, k: nat, a: Addr)
    requires Left(code, r, cfg, m, w, k) && !Settle(code, cfg, m).after.now.AtCode? && Enabled(DoWork(a), w)
    ensures var w' := Apply(code, DoWork(a), w);
      k > 0 && Inv(w') && (w'.s.control.Running? ==> Left(code, r, cfg, m, w', k - 1) && w'.s.inflight == w.s.inflight)
  {
    StillToDo(code, r, cfg, m, w, k);
    WorkGoesOn(code, r, cfg, m, w, k, a, Apply(code, DoWork(a), w));
    IsLess(code, r, cfg, m, w, k, a, Apply(code, DoWork(a), w));
  }

  lemma WorkGoesOn(code: Code, r: nat, cfg: Config, m: nat, w: World, k: nat, a: Addr, w': World)
    requires Left(code, r, cfg, m, w, k) && k > 0 && Enabled(DoWork(a), w) && w' == Apply(code, DoWork(a), w)
    ensures Inv(w) && Inv(w') && k <= m + 1
    ensures w'.s.control.Running? ==> InBodyAt(code, w', r, cfg, m - (k - 1))
  {
    if k == m + 1 { ReadingIsLast(code, r, cfg, w, a); } else { OneMove(code, w, r, cfg, m - k, a); }
  }

  lemma IsLess(code: Code, r: nat, cfg: Config, m: nat, w: World, k: nat, a: Addr, w': World)
    requires Inv(w) && k > 0 && k <= m + 1 && Enabled(DoWork(a), w) && w' == Apply(code, DoWork(a), w)
    requires w'.s.control.Running? ==> InBodyAt(code, w', r, cfg, m - (k - 1))
    ensures w'.s.control.Running? ==> Left(code, r, cfg, m, w', k - 1) && w'.s.inflight == w.s.inflight
  {
    if w'.s.control.Running? { WorkLeavesInflight(code, w, a); }
  }

  lemma ReadingIsLast(code: Code, r: nat, cfg: Config, w: World, a: Addr)
    requires AboutToRead(code, w, r, cfg) && Enabled(DoWork(a), w)
    ensures var w' := Apply(code, DoWork(a), w); Inv(w') && InBodyAt(code, w', r, cfg, 0)
  {
    WorkKeeps(code, w, a);
    LeafIsRunning(w, r, w.s.control.frame, w.past[r]);
    WorkIsMove(code, w, a, r, w.s.control.frame, w.past[r]);
  }

  lemma WorkLeavesInflight(code: Code, w: World, a: Addr)
    requires Inv(w) && Enabled(DoWork(a), w) && Apply(code, DoWork(a), w).s.control.Running?
    ensures Apply(code, DoWork(a), w).s.inflight == w.s.inflight
  {
    var r, f := w.s.control.root, w.s.control.frame;
    LeafIsRunning(w, r, f, w.past[r]);
    match w.s.frames[f].point
    case InIo(_, _) =>
    case Body(c) =>
      match code(c) {
        case Return(v) => if |w.past[r].chain| > 1 { JoinEffect(w, r, f, w.past[r], Returned(v)); }
        case Throw(e) => if |w.past[r].chain| > 1 { JoinEffect(w, r, f, w.past[r], Raised(e)); }
        case _ =>
      }
  }

  lemma PostLeaves(code: Code, r: nat, cfg: Config, m: nat, w: World, k: nat, w': World)
    requires Left(code, r, cfg, m, w, k) && OnlyPosts(w, w') && Inv(w')
    ensures Left(code, r, cfg, m, w', k)
  {}

  // How much work a resumption that will end has to do at most, from its first transition on.
  lemma LeftAtFirst(code: Code, w: World, r: nat) returns (cfg: Config, m: nat, k: nat)
    requires MeaningInv(code, w) && Enabled(DoResume(r), w) && |w.past| == |w.s.tasks|
    requires DirectEnds(code, w.past[r].start, w.past[r].handled)
    ensures Left(code, r, cfg, m, Apply(code, DoResume(r), w), k) && !Settle(code, cfg, m).after.now.AtCode?
  {
    var w1 := Apply(code, DoResume(r), w);
    StepFollows(code, DoResume(r), w);
    assert RootOk(w, r);
    LeafIsRunning(w1, r, w1.s.control.frame, w1.past[r]);
    var w2, n;
    w2, cfg, n := EntersBody(code, w, r);
    m := ConfigSettles(code, w2.past[r], cfg, w.past[r].handled);
    k := if w1.s.frames[w1.s.control.frame].point.InIo? then m + 1 else m;
  }

  // No more than `bound` transitions are possible from here.
  ghost predicate IsBounded(step: Transition, w: World, bound: nat) {
    forall w', n: nat | Steps(step, w, w', n) :: n <= bound
  }

  // After `n` transitions of a resumption: what is left of the work and of what may be posted.
  ghost predicate Budget(code: Code, r: nat, cfg: Config, m: nat, bound: nat, w: World, n: nat) {
    n <= bound && (w.s.control.Running? ==>
      exists k: nat :: Left(code, r, cfg, m, w, k) && n + k + |w.s.inflight| <= bound)
  }

  lemma {:induction false} StepsCount(step: Transition, inv: (World, nat) -> bool, w: World, w': World, n: nat)
    requires Steps(step, w, w', n) && inv(w, 0) && forall x, j: nat, y | inv(x, j) && step(x, y) :: inv(y, j + 1)
    ensures inv(w', n)
    decreases n
  {
    if n != 0 {
      var w1 :| Steps(step, w, w1, n - 1) && step(w1, w');
      StepsCount(step, inv, w, w1, n - 1);
    }
  }

  lemma RunSpends(code: Code, r: nat, cfg: Config, m: nat, bound: nat, w: World, n: nat, w': World)
    requires Budget(code, r, cfg, m, bound, w, n) && !Settle(code, cfg, m).after.now.AtCode? && RunStep(code, w, w')
    ensures Budget(code, r, cfg, m, bound, w', n + 1)
  {
    var k: nat :| Left(code, r, cfg, m, w, k) && n + k + |w.s.inflight| <= bound;
    if WorkStep(code, w, w') {
      var a :| Enabled(DoWork(a), w) && w' == Apply(code, DoWork(a), w);
      WorkDecreases(code, r, cfg, m, w, k, a);
      assert w'.s.control.Running? ==> Left(code, r, cfg, m, w', k - 1) && n + 1 + (k - 1) + |w'.s.inflight| <= bound;
    } else {
      PostOnly(code, w, w');
      PostLeaves(code, r, cfg, m, w, k, w');
      StillToDo(code, r, cfg, m, w, k);
      assert Left(code, r, cfg, m, w', k) && n + 1 + k + |w'.s.inflight| <= bound;
    }
  }

  lemma StillToDo(code: Code, r: nat, cfg: Config, m: nat, w: World, k: nat)
    requires Left(code, r, cfg, m, w, k) && !Settle(code, cfg, m).after.now.AtCode?
    ensures k > 0
  {
    if k == 0 { StillMoving(code, w, r, cfg, m); }
  }

  /** A resumption cannot go on for ever if the root's sequential reading ends or blocks: there is a
      bound on its transitions, whatever frames are allocated and whatever completions are posted. */
  lemma ResumptionIsBounded(code: Code, w: World, r: nat) returns (bound: nat)
    requires Reachable(code, w) && Enabled(DoResume(r), w)
    requires r < |w.past| && DirectEnds(code, w.past[r].start, w.past[r].handled)
    ensures IsBounded(Runs(code), Apply(code, DoResume(r), w), bound)
  {
    ReachableMeaning(code, w);
    var w1 := Apply(code, DoResume(r), w);
    var cfg, m, k := LeftAtFirst(code, w, r);
    bound := k + |w1.s.inflight|;
    RunsAreBounded(code, w1, r, cfg, m, k);
  }

  lemma RunsAreBounded(code: Code, w: World, r: nat, cfg: Config, m: nat, k: nat)
    requires Left(code, r, cfg, m, w, k) && !Settle(code, cfg, m).after.now.AtCode?
    ensures IsBounded(Runs(code), w, k + |w.s.inflight|)
  {
    var bound := k + |w.s.inflight|;
    var inv := (x: World, j: nat) => Budget(code, r, cfg, m, bound, x, j);
    assert inv(w, 0) by { assert Left(code, r, cfg, m, w, k) && 0 + k + |w.s.inflight| <= bound; }
    forall x, j: nat, y | inv(x, j) && Runs(code)(x, y) ensures inv(y, j + 1) {
      RunSpends(code, r, cfg, m, bound, x, j, y);
    }
    forall w', n: nat | Steps(Runs(code), w, w', n) ensures n <= bound {
      StepsCount(Runs(code), inv, w, w', n);
    }
  }
}
