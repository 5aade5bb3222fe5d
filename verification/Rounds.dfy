/** A worker's loop, on the machine of chains: a pass of the task list, then a batch of completions. */
module RoundTheorems {
  import opened Common
  import opened Programs
  import opened Coroutines
  import opened ChainInvariant
  import opened Scheduling
  import opened WakeupTheorems
  import UringRing

  const BATCH := UringRing.BATCH

  // What may stand in a completion queue: the completion of an I/O operation, or anything else, which
  // brings any number of new roots: one for a task or a connection, none for a notice.
  datatype Arrival = IoArrival | OtherArrival

  // A ring with all that is queued, of which the world's own queue has the I/O completions.
  datatype Mixed = Mixed(w: World, entries: seq<Arrival>)

  function IoCount(es: seq<Arrival>): nat {
    if es == [] then 0 else (if es[0].IoArrival? then 1 else 0) + IoCount(es[1..])
  }

  ghost predicate Fits(x: Mixed) { IoCount(x.entries) == |x.w.s.queue| }

  ghost predicate EmplaceStep(code: Code, w: World, w': World) {
    exists a, c :: Enabled(DoEmplace(a, c), w) && w' == Apply(code, DoEmplace(a, c), w)
  }

  ghost function EmplaceSteps(code: Code): Transition { (w, w') => EmplaceStep(code, w, w') }

  ghost predicate Emplaced(code: Code, w: World, w': World) { exists n: nat :: Steps(EmplaceSteps(code), w, w', n) }

  ghost predicate HandleStep(w: World, w': World) {
    Enabled(DoHandle, w) && w' == World(Handle(w.s), HandlePast(w))
  }

  // The entry at the head of the queue is handled.
  ghost predicate EntryStep(code: Code, x: Mixed, y: Mixed) {
    && x.entries != [] && y.entries == x.entries[1..]
    && if x.entries[0].IoArrival? then HandleStep(x.w, y.w) else Emplaced(code, x.w, y.w)
  }

  type MixedStep = (Mixed, Mixed) -> bool

  ghost function EntrySteps(code: Code): MixedStep { (x, y) => EntryStep(code, x, y) }

  ghost predicate MixedSteps(step: MixedStep, x: Mixed, y: Mixed, n: nat)
    decreases n
  {
    if n == 0 then y == x else exists x1 :: MixedSteps(step, x, x1, n - 1) && step(x1, y)
  }

  // process_batch, of a ring that is not stopped.
  ghost predicate Batch(code: Code, x: Mixed, y: Mixed) { MixedSteps(EntrySteps(code), x, y, Taken(|x.entries|)) }

  function Taken(queued: nat): nat { if queued < BATCH then queued else BATCH }

  // More has been queued behind the rest.
  ghost predicate MoreQueued(x: Mixed, y: Mixed) { x.entries <= y.entries && Fits(y) }

  // A round of the loop: a whole pass that resumes the roots in `order`, then a batch. The kernel
  // may post completions and messages at any time.
  ghost predicate Round(code: Code, x: Mixed, order: seq<nat>, y: Mixed) {
    exists x1: Mixed, x2: Mixed :: PassThenPosts(code, x, order, x1, x2) && Batch(code, x2, y)
  }

  ghost predicate PassThenPosts(code: Code, x: Mixed, order: seq<nat>, x1: Mixed, x2: Mixed) {
    && PassTo(Resumes(code), Posts(code), x.w, |x1.w.s.tasks|, order, x1.w) && MoreQueued(x, x1)
    && Posts(code)(x1.w, x2.w) && MoreQueued(x1, x2)
  }

  // The I/O completion at position `q` of the queue is for frame `a`, and root `r` is asleep on it.
  ghost predicate AsleepOn(w: World, q: nat, a: Addr, r: nat) {
    && Inv(w) && w.s.control.Idle? && q < |w.s.queue| && w.s.queue[q].addr == a && r < |w.s.tasks|
    && a in w.s.frames && w.s.frames[a].chainTask == r
    && w.s.tasks[r].valid && w.s.tasks[r].pending && w.s.tasks[r].awaiting == a
  }

  // The same for the entry at position `p` of all that is queued.
  ghost predicate AsleepAt(x: Mixed, p: nat, a: Addr, r: nat) {
    && Fits(x) && p < |x.entries| && x.entries[p].IoArrival? && AsleepOn(x.w, IoCount(x.entries[..p]), a, r)
  }

  lemma {:induction false} IoCountBelow(es: seq<Arrival>, p: nat)
    requires p < |es| && es[p].IoArrival?
    ensures IoCount(es[..p]) < IoCount(es)
  {
    if p > 0 {
      assert es[..p][1..] == es[1..][..p - 1];
      IoCountBelow(es[1..], p - 1);
    }
  }

  lemma SomeRootSleeps(x: Mixed, p: nat) returns (a: Addr, r: nat)
    requires Inv(x.w) && x.w.s.control.Idle? && Fits(x) && p < |x.entries| && x.entries[p].IoArrival?
    ensures AsleepAt(x, p, a, r)
  {
    IoCountBelow(x.entries, p);
    var w := x.w;
    a := w.s.queue[IoCount(x.entries[..p])].addr;
    assert Outstanding(w.s, a) by { assert InCq(w.s, a); }
    LeafOf(w, a);
    r := w.s.frames[a].chainTask;
    assert RootOk(w, r);
  }

  // As long as the root is left alone and the completion stays queued, it is asleep on it.
  lemma StaysAsleep(w: World, q: nat, a: Addr, r: nat, w': World, q': nat)
    requires AsleepOn(w, q, a, r) && Inv(w') && w'.s.control.Idle?
    requires r < |w'.s.tasks| && w'.s.tasks[r] == w.s.tasks[r] && q' < |w'.s.queue| && w'.s.queue[q'].addr == a
    ensures AsleepOn(w', q', a, r)
  {
    assert RootOk(w', r);
  }

  lemma PassLeavesAsleep(code: Code, w: World, q: nat, a: Addr, r: nat, order: seq<nat>, w': World)
    requires AsleepOn(w, q, a, r) && |w.past| == |w.s.tasks|
    requires PassTo(Resumes(code), Posts(code), w, |w'.s.tasks|, order, w')
    ensures AsleepOn(w', q, a, r) && r !in order
  {
    ResumesIsLocal(code);
    PostsIsLocal(code);
    PassKeeps(Resumes(code), Posts(code), x => Inv(x), w, |w'.s.tasks|, order, w');
    NotReadyIsSkipped(w, order, w');
    ReadyOnly(w.s.tasks, |w.s.tasks|);
    RangeOnly(|w.s.tasks|, |w'.s.tasks|);
    assert r !in ReadyBelow(w.s.tasks, |w.s.tasks|) && r !in Range(|w.s.tasks|, |w'.s.tasks|);
    StaysAsleep(w, q, a, r, w', q);
  }

  lemma PostsLeaveAsleep(code: Code, w: World, q: nat, a: Addr, r: nat, w': World)
    requires AsleepOn(w, q, a, r) && Posts(code)(w, w')
    ensures AsleepOn(w', q, a, r)
  {
    PostsIsLocal(code);
    assert OnlyPosts(w, w');
    StaysAsleep(w, q, a, r, w', q);
  }

  // Handling the completion at the head wakes the root that is asleep on it, and no other.
  lemma HandleOne(w: World, q: nat, a: Addr, r: nat, w': World)
    requires AsleepOn(w, q, a, r) && HandleStep(w, w')
    ensures if q == 0 then Awake(w', r) else AsleepOn(w', q - 1, a, r)
  {
    HandleKeeps(w);
    HandleEffect(w);
    assert RootOk(w, r);
    if q > 0 {
      assert w.s.queue[0].addr != a;
      assert w'.s.queue[q - 1] == w.s.queue[q];
      StaysAsleep(w, q, a, r, w', q - 1);
    }
  }

  ghost predicate Awake(w: World, r: nat) { Inv(w) && w.s.control.Idle? && r < |w.s.tasks| && Ready(w.s.tasks[r]) }

  lemma HandleKeepsAwake(w: World, r: nat, w': World)
    requires Awake(w, r) && HandleStep(w, w')
    ensures Awake(w', r)
  {
    HandleKeeps(w);
    HandleEffect(w);
  }

  // New roots go behind the others.
  ghost predicate Behind(w: World, w': World) {
    w'.s.control.Idle? && w.s.tasks <= w'.s.tasks && w'.s.queue == w.s.queue
  }

  ghost predicate GoesBehind(step: Transition, inv: World -> bool) {
    forall w, w' | inv(w) && step(w, w') :: inv(w') && Behind(w, w')
  }

  lemma {:induction false} AllBehind(step: Transition, inv: World -> bool, w: World, w': World, n: nat)
    requires GoesBehind(step, inv) && inv(w) && w.s.control.Idle? && Steps(step, w, w', n)
    ensures inv(w') && Behind(w, w')
    decreases n
  {
    if n > 0 {
      var w1 :| Steps(step, w, w1, n - 1) && step(w1, w');
      AllBehind(step, inv, w, w1, n - 1);
    }
  }

  lemma EmplacedBehind(code: Code, w: World, w': World)
    requires Inv(w) && w.s.control.Idle? && Emplaced(code, w, w')
    ensures Inv(w') && Behind(w, w')
  {
    forall x, y | Inv(x) && EmplaceSteps(code)(x, y) ensures Inv(y) && Behind(x, y) { EmplacedNext(code, x, y); }
    var n: nat :| Steps(EmplaceSteps(code), w, w', n);
    AllBehind(EmplaceSteps(code), x => Inv(x), w, w', n);
  }

  lemma EmplacedNext(code: Code, w: World, w': World)
    requires Inv(w) && EmplaceStep(code, w, w')
    ensures Inv(w') && Behind(w, w')
  {
    var a, c :| Enabled(DoEmplace(a, c), w) && w' == Apply(code, DoEmplace(a, c), w);
    EmplaceKeeps(w, a, c);
  }

  lemma EmplacedLeavesAsleep(code: Code, w: World, q: nat, a: Addr, r: nat, w': World)
    requires AsleepOn(w, q, a, r) && Emplaced(code, w, w')
    ensures AsleepOn(w', q, a, r)
  {
    EmplacedBehind(code, w, w');
    StaysAsleep(w, q, a, r, w', q);
  }

  lemma EmplacedKeepsAwake(code: Code, w: World, r: nat, w': World)
    requires Awake(w, r) && Emplaced(code, w, w')
    ensures Awake(w', r)
  {
    EmplacedBehind(code, w, w');
  }

  lemma EntryFits(code: Code, x: Mixed, y: Mixed)
    requires Inv(x.w) && x.w.s.control.Idle? && Fits(x) && EntryStep(code, x, y)
    ensures Fits(y)
  {
    if x.entries[0].IoArrival? { HandleEffect(x.w); } else { EmplacedBehind(code, x.w, y.w); }
  }

  // Handling one entry brings every other one nearer to the head.
  lemma HandleEntry(code: Code, x: Mixed, p: nat, a: Addr, r: nat, y: Mixed)
    requires AsleepAt(x, p, a, r) && EntryStep(code, x, y)
    ensures if p == 0 then Awake(y.w, r) else AsleepAt(y, p - 1, a, r)
  {
    EntryFits(code, x, y);
    var q := IoCount(x.entries[..p]);
    if p > 0 {
      assert x.entries[..p][1..] == y.entries[..p - 1];
      assert q == (if x.entries[0].IoArrival? then 1 else 0) + IoCount(y.entries[..p - 1]);
    }
    if x.entries[0].IoArrival? { HandleOne(x.w, q, a, r, y.w); } else {
      EmplacedLeavesAsleep(code, x.w, q, a, r, y.w);
    }
  }

  lemma EntryKeepsAwake(code: Code, x: Mixed, r: nat, y: Mixed)
    requires Awake(x.w, r) && EntryStep(code, x, y)
    ensures Awake(y.w, r)
  {
    if x.entries[0].IoArrival? { HandleKeepsAwake(x.w, r, y.w); } else { EmplacedKeepsAwake(code, x.w, r, y.w); }
  }

  // Something that is `p` steps away comes after that many, and then stays.
  ghost predicate Approaches(step: MixedStep, far: (Mixed, nat) -> bool, near: Mixed -> bool) {
    forall x, q: nat, y {:trigger NearerAt(step, far, near, x, q, y)} :: NearerAt(step, far, near, x, q, y)
  }

  ghost predicate NearerAt(step: MixedStep, far: (Mixed, nat) -> bool, near: Mixed -> bool, x: Mixed, q: nat,
      y: Mixed) {
    && (far(x, q) && step(x, y) ==> if q == 0 then near(y) else far(y, q - 1))
    && (near(x) && step(x, y) ==> near(y))
  }

  lemma {:induction false} CountsDown(step: MixedStep, far: (Mixed, nat) -> bool, near: Mixed -> bool, w: Mixed,
      p: nat, n: nat, w': Mixed)
    requires MixedSteps(step, w, w', n) && far(w, p) && Approaches(step, far, near)
    ensures if n <= p then far(w', p - n) else near(w')
    decreases n
  {
    if n > 0 {
      var w1 :| MixedSteps(step, w, w1, n - 1) && step(w1, w');
      CountsDown(step, far, near, w, p, n - 1, w1);
      var q: nat := if n - 1 <= p then p - (n - 1) else 0;
      assert NearerAt(step, far, near, w1, q, w');
    }
  }

  lemma BatchCountsDown(step: MixedStep, far: (Mixed, nat) -> bool, near: Mixed -> bool, w: Mixed, p: nat,
      queued: nat, w': Mixed)
    requires MixedSteps(step, w, w', Taken(queued)) && far(w, p) && Approaches(step, far, near) && p < queued
    ensures if p < BATCH then near(w') else far(w', p - BATCH)
  {
    CountsDown(step, far, near, w, p, Taken(queued), w');
  }

  ghost function Far(a: Addr, r: nat): (Mixed, nat) -> bool { (x: Mixed, p: nat) => AsleepAt(x, p, a, r) }
  ghost function Near(r: nat): Mixed -> bool { (x: Mixed) => Awake(x.w, r) }

  lemma EntriesApproach(code: Code, a: Addr, r: nat)
    ensures Approaches(EntrySteps(code), Far(a, r), Near(r))
  {
    forall x, q: nat, y ensures NearerAt(EntrySteps(code), Far(a, r), Near(r), x, q, y) {
      if AsleepAt(x, q, a, r) && EntryStep(code, x, y) { HandleEntry(code, x, q, a, r, y); }
      if Awake(x.w, r) && EntryStep(code, x, y) { EntryKeepsAwake(code, x, r, y); }
    }
  }

  // A round brings the completion one batch nearer, or wakes the root; it does not resume it.
  lemma RoundBrings(code: Code, x: Mixed, p: nat, a: Addr, r: nat, order: seq<nat>, y: Mixed)
    requires AsleepAt(x, p, a, r) && Round(code, x, order, y)
    ensures r !in order && if p < BATCH then Near(r)(y) else Far(a, r)(y, p - BATCH)
  {
    var x1: Mixed, x2: Mixed :| PassThenPosts(code, x, order, x1, x2) && Batch(code, x2, y);
    PassedOver(code, x, p, a, r, order, x1, x2);
    BatchBrings(code, x2, p, a, r, y);
  }

  // What is queued behind an entry does not move it.
  lemma PassedOver(code: Code, x: Mixed, p: nat, a: Addr, r: nat, order: seq<nat>, x1: Mixed, x2: Mixed)
    requires AsleepAt(x, p, a, r) && PassThenPosts(code, x, order, x1, x2)
    ensures r !in order && Far(a, r)(x2, p) && p < |x2.entries|
  {
    var q := IoCount(x.entries[..p]);
    assert x2.entries[..p] == x.entries[..p];
    PassLeavesAsleep(code, x.w, q, a, r, order, x1.w);
    PostsLeaveAsleep(code, x1.w, q, a, r, x2.w);
  }

  lemma BatchBrings(code: Code, x: Mixed, p: nat, a: Addr, r: nat, y: Mixed)
    requires Far(a, r)(x, p) && Batch(code, x, y) && p < |x.entries|
    ensures if p < BATCH then Near(r)(y) else Far(a, r)(y, p - BATCH)
  {
    EntriesApproach(code, a, r);
    BatchCountsDown(EntrySteps(code), Far(a, r), Near(r), x, p, |x.entries|, y);
  }

  lemma NextRoundResumes(code: Code, x: Mixed, r: nat, order: seq<nat>, y: Mixed)
    requires Awake(x.w, r) && Round(code, x, order, y)
    ensures r in order
  {
    var x1: Mixed, x2: Mixed :| PassThenPosts(code, x, order, x1, x2) && Batch(code, x2, y);
    PassResumesReady(code, x.w, r, order, x1.w);
  }

  // -- Round after round

  type Rounding = (Mixed, seq<nat>, Mixed) -> bool
  ghost function RoundsOf(code: Code): Rounding { (w, order, w') => Round(code, w, order, w') }

  ghost predicate AllRounds(round: Rounding, ws: seq<Mixed>, orders: seq<seq<nat>>) {
    |ws| == |orders| + 1 && forall i {:trigger RoundAt(round, ws, orders, i)} | 0 <= i < |orders| ::
      RoundAt(round, ws, orders, i)
  }

  ghost predicate RoundAt(round: Rounding, ws: seq<Mixed>, orders: seq<seq<nat>>, i: nat)
    requires i < |orders| && |ws| == |orders| + 1
  {
    round(ws[i], orders[i], ws[i + 1])
  }

  // What RoundBrings and NextRoundResumes say of one round.
  ghost predicate BringsAt(round: Rounding, far: (Mixed, nat) -> bool, near: Mixed -> bool, r: nat,
                           w: Mixed, p: nat, order: seq<nat>, w': Mixed) {
    && (far(w, p) && round(w, order, w') ==> r !in order && if p < BATCH then near(w') else far(w', p - BATCH))
    && (near(w) && round(w, order, w') ==> r in order)
  }

  ghost predicate Brings(round: Rounding, far: (Mixed, nat) -> bool, near: Mixed -> bool, r: nat) {
    forall w, p: nat, order, w' {:trigger BringsAt(round, far, near, r, w, p, order, w')} ::
      BringsAt(round, far, near, r, w, p, order, w')
  }

  lemma {:induction false} BroughtInTime(round: Rounding, far: (Mixed, nat) -> bool, near: Mixed -> bool, r: nat,
                                         ws: seq<Mixed>, orders: seq<seq<nat>>, p: nat)
    requires AllRounds(round, ws, orders) && Brings(round, far, near, r) && far(ws[0], p) && |orders| >= p / BATCH + 2
    ensures forall i | 0 <= i <= p / BATCH :: r !in orders[i]
    ensures r in orders[p / BATCH + 1]
    decreases p
  {
    assert RoundAt(round, ws, orders, 0) && BringsAt(round, far, near, r, ws[0], p, orders[0], ws[1]);
    if p < BATCH {
      assert p / BATCH == 0;
      assert RoundAt(round, ws, orders, 1) && BringsAt(round, far, near, r, ws[1], 0, orders[1], ws[2]);
    } else {
      var ws', orders', q := ws[1..], orders[1..], p - BATCH;
      forall i | 0 <= i < |orders'| ensures RoundAt(round, ws', orders', i) {
        assert RoundAt(round, ws, orders, i + 1);
      }
      assert q / BATCH + 1 == p / BATCH;
      BroughtInTime(round, far, near, r, ws', orders', q);
      assert orders'[q / BATCH + 1] == orders[p / BATCH + 1];
      forall i | 0 <= i <= p / BATCH ensures r !in orders[i] {
        if i > 0 { assert orders'[i - 1] == orders[i]; }
      }
    }
  }

  /** The root that waits for the I/O completion at position p of all that is queued is woken by the
      batch of round p/256, counting from 0, and resumed in the pass of the next round; in no pass
      before. */
  lemma BoundedWakeup(code: Code, xs: seq<Mixed>, orders: seq<seq<nat>>, p: nat) returns (r: nat)
    requires AllRounds(RoundsOf(code), xs, orders) && Reachable(code, xs[0].w) && xs[0].w.s.control.Idle?
    requires Fits(xs[0]) && p < |xs[0].entries| && xs[0].entries[p].IoArrival? && |orders| >= p / BATCH + 2
    ensures IoCount(xs[0].entries[..p]) < |xs[0].w.s.queue|
    ensures var s := xs[0].w.s;
      var a := s.queue[IoCount(xs[0].entries[..p])].addr;
      a in s.frames && s.frames[a].chainTask == r
    ensures forall i | 0 <= i <= p / BATCH :: r !in orders[i]
    ensures r in orders[p / BATCH + 1]
  {
    ReachableInv(code, xs[0].w);
    var a: Addr;
    a, r := SomeRootSleeps(xs[0], p);
    RoundsBring(code, a, r);
    BroughtInTime(RoundsOf(code), Far(a, r), Near(r), r, xs, orders, p);
  }

  lemma RoundsBring(code: Code, a: Addr, r: nat)
    ensures Brings(RoundsOf(code), Far(a, r), Near(r), r)
  {
    forall x, p: nat, order, y ensures BringsAt(RoundsOf(code), Far(a, r), Near(r), r, x, p, order, y) {
      if AsleepAt(x, p, a, r) && Round(code, x, order, y) { RoundBrings(code, x, p, a, r, order, y); }
      if Awake(x.w, r) && Round(code, x, order, y) { NextRoundResumes(code, x, r, order, y); }
    }
  }
}
