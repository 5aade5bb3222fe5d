/** SystemLoop: picking workers, sending off accepted sockets, and shutting down. */
module MainLoop {
  import opened Common
  import opened Messages
  import opened RoundRobin
  import UringRing

  datatype SqeFlag = Link | SkipSuccess

  // What the main ring submits, with the flags set on it; `worker` is an index into the ring ids, and
  // `token` and `message` are the new heap objects that the worker's completions will point at.
  datatype Sqe =
    | SendFd(worker: nat, slot: int, token: Cell, flags: set<SqeFlag>)
    | SendTask(worker: nat, message: Cell, flags: set<SqeFlag>)
    | CloseDirect(slot: int, flags: set<SqeFlag>)
    | QuitMessage(worker: nat)
    | QuitSelf

  // What terminate() does, in order.
  datatype Event = StopRequested(worker: nat) | Sent(sqe: Sqe) | Submitted | Waited | ProcessedAll

  const RECEIVER := Token(MultishotAcceptFdReceiver, 0, -38, 0)
  const NO_FUNC: FuncId := 0  // a function object that has been moved from

  // The linked triple for one accepted socket: its descriptor, then its task, then the close.
  function Triple(worker: nat, slot: int, func: FuncId): seq<Sqe> {
    [SendFd(worker, slot, RECEIVER, {Link, SkipSuccess}), SendTask(worker, MultiMessage(func), {Link, SkipSuccess}),
     CloseDirect(slot, {SkipSuccess})]
  }

  function Triples(picks: seq<nat>, slots: seq<int>, funcs: seq<FuncId>): seq<Sqe>
    requires |picks| == |slots| == |funcs|
  {
    if slots == [] then [] else
    var n := |slots| - 1;
    Triples(picks[..n], slots[..n], funcs[..n]) + Triple(picks[n], slots[n], funcs[n])
  }

  lemma TriplesNext(picks: seq<nat>, slots: seq<int>, funcs: seq<FuncId>, worker: nat, slot: int, func: FuncId)
    requires |picks| == |slots| == |funcs|
    ensures Triples(picks + [worker], slots + [slot], funcs + [func])
      == Triples(picks, slots, funcs) + Triple(worker, slot, func)
  {
    assert (picks + [worker])[..|picks|] == picks && (slots + [slot])[..|slots|] == slots;
    assert (funcs + [func])[..|funcs|] == funcs;
  }

  lemma {:induction false} TripleAt(picks: seq<nat>, slots: seq<int>, funcs: seq<FuncId>, i: nat)
    requires |picks| == |slots| == |funcs| && i < |slots|
    ensures |Triples(picks, slots, funcs)| == 3 * |slots|
    ensures var t := Triples(picks, slots, funcs);
      && t[3 * i] == SendFd(picks[i], slots[i], Token(MultishotAcceptFdReceiver, 0, -38, 0), {Link, SkipSuccess})
      && t[3 * i + 1] == SendTask(picks[i], MultiMessage(funcs[i]), {Link, SkipSuccess})
      && t[3 * i + 2] == CloseDirect(slots[i], {SkipSuccess})
  {
    var n := |slots| - 1;
    if i < n { TripleAt(picks[..n], slots[..n], funcs[..n], i); }
    else if n > 0 { TripleAt(picks[..n], slots[..n], funcs[..n], n - 1); }
  }

  // The function that each socket of one drain gets: the first takes it away.
  function Handed(func: FuncId, n: nat): (fs: seq<FuncId>)
    ensures |fs| == n
  {
    seq(n, i => if i == 0 then func else NO_FUNC)
  }

  // One worker after the other, from the first.
  function Stops(n: nat): seq<Event> { seq(n, i requires 0 <= i => StopRequested(i)) }
  function Quits(n: nat): seq<Event> { seq(n, i requires 0 <= i => Sent(QuitMessage(i))) }

  // What has been submitted, as the events have it.
  function SentIn(es: seq<Event>): seq<Sqe> {
    if es == [] then [] else
    var e := es[|es| - 1];
    SentIn(es[..|es| - 1]) + if e.Sent? then [e.sqe] else []
  }

  lemma {:induction false} SentInBoth(es: seq<Event>, more: seq<Event>)
    ensures SentIn(es + more) == SentIn(es) + SentIn(more)
    decreases |more|
  {
    if more == [] { assert es + more == es; } else {
      var n := |more| - 1;
      SentInBoth(es, more[..n]);
      assert (es + more)[..|es + more| - 1] == es + more[..n];
    }
  }

  // Terminating a loop that is not stopped.
  function Termination(workers: nat): seq<Event> { Stops(workers) + Quits(workers) + Rest() }
  function Rest(): seq<Event> { [Sent(QuitSelf), Submitted, Waited, ProcessedAll] }

  class SystemLoop {
    const ring: UringRing.Uring  // main_uring_
    const workers: nat  // at least one; their ring ids are indexed from 0
    var current: int    // current_worker_uring_idx_
    var sqes: seq<Sqe>
    var stopped: bool
    var stopRequested: seq<bool>
    var events: seq<Event>

    ghost predicate Valid()
      reads this
    {
      workers > 0 && -1 <= current < workers && |stopRequested| == workers
    }

    constructor (ring: UringRing.Uring, workers: nat)
      requires workers > 0
      ensures Valid() && this.ring == ring && this.workers == workers && current == -1 && sqes == []
      ensures !stopped && events == [] && forall i | 0 <= i < workers :: !stopRequested[i]
    {
      this.ring, this.workers := ring, workers;
      current, sqes, stopped, events := -1, [], false, [];
      stopRequested := seq(workers, _ => false);
    }

    method PickWorker() returns (worker: nat)
      requires Valid()
      modifies `current
      ensures Valid() && worker < workers && [worker] == Picks(old(current), workers, 1)
        && current == After(old(current), workers, 1)
    {
      current := (current + 1) % workers;
      worker := current;
      assert Picks(old(current), workers, 1) == [current];
    }

    // The drain of the main ring's accepted sockets.
    method MshotAcceptSendAwaitingFdAndProcess(func: FuncId)
      requires Valid()
      modifies `current, `sqes, ring`awaiting
      ensures Valid() && ring.awaiting == []
      ensures var n := |old(ring.awaiting)|;
        sqes == old(sqes) + Triples(Picks(old(current), workers, n), old(ring.awaiting), Handed(func, n))
      ensures current == After(old(current), workers, |old(ring.awaiting)|)
    {
      ghost var sent: seq<Sqe> := [];
      var funcTask := func;
      for i := 0 to |ring.awaiting|
        invariant Valid() && ring.awaiting == old(ring.awaiting)
        invariant current == After(old(current), workers, i)
        invariant funcTask == if i == 0 then func else NO_FUNC
        invariant sqes == old(sqes) + sent
        invariant sent == Triples(Picks(old(current), workers, i), ring.awaiting[..i], Handed(func, i))
      {
        var fd := ring.awaiting[i];
        var worker := PickWorker();
        PicksSplit(old(current), workers, i, 1);
        TriplesNext(Picks(old(current), workers, i), ring.awaiting[..i], Handed(func, i), worker, fd, funcTask);
        assert ring.awaiting[..i + 1] == ring.awaiting[..i] + [fd];
        assert Handed(func, i + 1) == Handed(func, i) + [funcTask];
        SendTriple(worker, fd, funcTask);
        sent := sent + Triple(worker, fd, funcTask);
        funcTask := NO_FUNC;  // it was passed on by std::move
      }
      assert ring.awaiting[..|ring.awaiting|] == ring.awaiting;
      ring.awaiting := [];
    }

    // The three submissions for one socket, linked so that each waits for the one before it.
    method SendTriple(worker: nat, fd: int, func: FuncId)
      modifies `sqes
      ensures sqes == old(sqes) + Triple(worker, fd, func)
    {
      var receiverToken := Token(MultishotAcceptFdReceiver, 0, -38, 0);
      var taskToken := MultiMessage(func);
      var fdFlags, taskFlags, closeFlags := {}, {}, {};
      fdFlags := fdFlags + {SkipSuccess, Link};
      taskFlags := taskFlags + {SkipSuccess, Link};
      closeFlags := closeFlags + {SkipSuccess};
      assert fdFlags == taskFlags == {Link, SkipSuccess} && closeFlags == {SkipSuccess};
      sqes := sqes + [SendFd(worker, fd, receiverToken, fdFlags)];
      sqes := sqes + [SendTask(worker, taskToken, taskFlags)];
      sqes := sqes + [CloseDirect(fd, closeFlags)];
    }

    // Every worker's thread is asked to stop before any Quit is sent; then the main ring handles what
    // is in its queue, once something is, `arrived` being what comes by then.
    method Terminate(arrived: seq<Cqe>)
      requires Valid() && GoodAlloc(ring.alloc)
      requires !stopped ==>
        && ring.completions + arrived != []
        && UringRing.HandleEach(ring.alloc, ring.memory, ring.N(), ring.completions + arrived).Handled?
      modifies this, ring
      ensures Valid() && stopped && current == old(current)
      ensures old(stopped) ==>
        stopRequested == old(stopRequested) && events == old(events) && sqes == old(sqes) && unchanged(ring)
      ensures !old(stopped) ==>
        && events == old(events) + Termination(workers) && sqes == old(sqes) + SentIn(Termination(workers))
        && (forall i | 0 <= i < workers :: stopRequested[i])
        && UringRing.Handled(ring.memory, ring.N())
           == UringRing.HandleEach(ring.alloc, old(ring.memory), old(ring.N()), old(ring.completions) + arrived)
        && ring.completions == []
    {
      if stopped { return; }
      stopped := true;
      for i := 0 to workers
        invariant Valid() && stopped && current == old(current) && sqes == old(sqes)
        invariant events == old(events) + Stops(i)
        invariant forall j | 0 <= j < i :: stopRequested[j]
        modifies this
      {
        stopRequested := stopRequested[i := true];
        events := events + [StopRequested(i)];
      }
      NotifyAll();
      ring.completions := ring.completions + arrived;
      ring.ProcessAll();
      events := events + [Waited, ProcessedAll];
      assert events == old(events) + Termination(workers);
      OnlySent(workers);
    }

    // The Quit messages, for the workers and for the loop itself, are made and submitted.
    method NotifyAll()
      requires Valid()
      modifies `sqes, `events
      ensures Valid() && events == old(events) + Quits(workers) + [Sent(QuitSelf), Submitted]
      ensures sqes == old(sqes) + SentIn(Quits(workers) + [Sent(QuitSelf), Submitted])
    {
      for i := 0 to workers
        invariant Valid() && events == old(events) + Quits(i) && sqes == old(sqes) + SentIn(Quits(i))
      {
        assert Quits(i + 1) == Quits(i) + [Sent(QuitMessage(i))];
        sqes := sqes + [QuitMessage(i)];
        events := events + [Sent(QuitMessage(i))];
      }
      sqes := sqes + [QuitSelf];
      events := events + [Sent(QuitSelf), Submitted];
      SentInBoth(Quits(workers), [Sent(QuitSelf), Submitted]);
      assert [Sent(QuitSelf), Submitted][..1] == [Sent(QuitSelf)];
    }
  }

  lemma {:induction false} StopsSendNothing(n: nat)
    ensures SentIn(Stops(n)) == []
  {
    if n > 0 {
      StopsSendNothing(n - 1);
      assert Stops(n)[..n - 1] == Stops(n - 1);
    }
  }

  lemma OnlySent(n: nat)
    ensures SentIn(Termination(n)) == SentIn(Quits(n) + [Sent(QuitSelf), Submitted])
  {
    StopsSendNothing(n);
    var rest := Quits(n) + [Sent(QuitSelf), Submitted];
    assert Termination(n) == (Stops(n) + rest) + [Waited, ProcessedAll];
    SentInBoth(Stops(n), rest);
    SentInBoth(Stops(n) + rest, [Waited, ProcessedAll]);
    assert [Waited, ProcessedAll][..1] == [Waited];
  }

  lemma {:induction false} QuitsSend(n: nat)
    ensures |SentIn(Quits(n))| == n && forall i | 0 <= i < n :: SentIn(Quits(n))[i] == QuitMessage(i)
  {
    if n > 0 {
      QuitsSend(n - 1);
      assert Quits(n)[..n - 1] == Quits(n - 1);
    }
  }

  /** What terminate() submits is one Quit message to each worker, in their order, and then its own; it is
      submitted before anything is waited for, and handled last. */
  lemma EachWorkerGetsAQuit(n: nat)
    ensures |SentIn(Termination(n))| == n + 1 && SentIn(Termination(n))[n] == QuitSelf
    ensures forall i | 0 <= i < n :: SentIn(Termination(n))[i] == QuitMessage(i)
    ensures |Termination(n)| == n + n + 4 && Termination(n)[n + n + 1..] == [Submitted, Waited, ProcessedAll]
  {
    OnlySent(n);
    QuitsSend(n);
    SentInBoth(Quits(n), [Sent(QuitSelf), Submitted]);
    assert [Sent(QuitSelf), Submitted][..1] == [Sent(QuitSelf)];
  }

  /** In what terminate() does, every stop request comes before every Quit message, and every worker
      gets one of each. */
  lemma StopsBeforeQuits(n: nat, worker: nat)
    requires worker < n
    ensures forall i, j | 0 <= i < |Termination(n)| && 0 <= j < |Termination(n)| && Termination(n)[i].StopRequested?
      && Termination(n)[j].Sent? :: i < j
    ensures multiset(Termination(n))[StopRequested(worker)] == 1
      && multiset(Termination(n))[Sent(QuitMessage(worker))] == 1
  {
    assert forall i | 0 <= i < |Termination(n)| :: Termination(n)[i].StopRequested? <==> i < n;
    OneOfEach(n, worker);
  }

  lemma OneOfEach(n: nat, worker: nat)
    requires worker < n
    ensures multiset(Termination(n))[StopRequested(worker)] == 1
      && multiset(Termination(n))[Sent(QuitMessage(worker))] == 1
  {
    var s, q := Stops(n), Quits(n);
    assert s == s[..worker] + [s[worker]] + s[worker + 1..];
    assert q == q[..worker] + [q[worker]] + q[worker + 1..];
    assert StopRequested(worker) !in s[..worker] && StopRequested(worker) !in s[worker + 1..];
    assert Sent(QuitMessage(worker)) !in q[..worker] && Sent(QuitMessage(worker)) !in q[worker + 1..];
  }
}

/** The multishot acceptor: what keeps its root awake while accepted sockets wait. */
module Acceptor {
  import opened Messages
  import opened RoundRobin
  import opened MainLoop

  // The main ring's accepted sockets, the listener root's pending flag, and the history of the sockets
  // accepted and of the function objects that those sent off were given.
  datatype Acc = Acc(awaiting: seq<int>, pending: bool, current: int, sqes: seq<Sqe>,
    accepted: seq<int>, given: seq<FuncId>)

  datatype Label =
    | Accepted(res: int)  // a completion of the multishot accept
    | Resume              // a pass of the task loop comes to the root

  // The completion queues the socket, unless the accept failed, and wakes the root either way.
  function OnAccepted(a: Acc, res: int): Acc {
    if res >= 0 then a.(awaiting := a.awaiting + [res], accepted := a.accepted + [res], pending := false)
      else a.(pending := false)
  }

  // The root drains the list and awaits, pending, again. It is the same the first time: the awaiter of
  // the multishot accept leaves the root not pending, so it is resumed at once.
  function OnResume(a: Acc, workers: nat, func: FuncId): Acc
    requires workers > 0 && -1 <= a.current < workers
  {
    if a.pending then a
    else
      var n := |a.awaiting|;
      a.(awaiting := [], pending := true, current := After(a.current, workers, n),
         sqes := a.sqes + Triples(Picks(a.current, workers, n), a.awaiting, Handed(func, n)),
         given := a.given + Handed(func, n))
  }

  function Apply(l: Label, a: Acc, workers: nat, func: FuncId): Acc
    requires workers > 0 && -1 <= a.current < workers
  {
    match l
    case Accepted(res) => OnAccepted(a, res)
    case Resume => OnResume(a, workers, func)
  }

  const AT_FIRST := Acc([], false, -1, [], [], [])

  function RunFrom(ls: seq<Label>, workers: nat, func: FuncId): (a: Acc)
    requires workers > 0
    ensures -1 <= a.current < workers
  {
    if ls == [] then AT_FIRST else Apply(ls[|ls| - 1], RunFrom(ls[..|ls| - 1], workers, func), workers, func)
  }

  /** While accepted sockets wait, the listener's root is not pending. */
  lemma {:induction false} NeverSleepsOnWork(ls: seq<Label>, workers: nat, func: FuncId)
    requires workers > 0
    ensures RunFrom(ls, workers, func).awaiting != [] ==> !RunFrom(ls, workers, func).pending
  {
    if ls != [] { NeverSleepsOnWork(ls[..|ls| - 1], workers, func); }
  }

  lemma {:induction false} TriplesSplit(p: seq<nat>, s: seq<int>, f: seq<FuncId>, q: seq<nat>, t: seq<int>,
      g: seq<FuncId>)
    requires |p| == |s| == |f| && |q| == |t| == |g|
    ensures Triples(p + q, s + t, f + g) == Triples(p, s, f) + Triples(q, t, g)
    decreases |t|
  {
    if t == [] {
      assert p + q == p && s + t == s && f + g == f;
    } else {
      var n := |t| - 1;
      TriplesSplit(p, s, f, q[..n], t[..n], g[..n]);
      assert p + q == (p + q[..n]) + [q[n]] && s + t == (s + t[..n]) + [t[n]] && f + g == (f + g[..n]) + [g[n]];
      TriplesNext(p + q[..n], s + t[..n], f + g[..n], q[n], t[n], g[n]);
    }
  }

  // The sockets sent off and those that wait are the accepted ones.
  ghost predicate AllSent(a: Acc, workers: nat)
    requires workers > 0
  {
    && |a.awaiting| <= |a.accepted|
    && var n := |a.accepted| - |a.awaiting|;
    && a.accepted[n..] == a.awaiting && a.current == After(-1, workers, n)
    && |a.given| == n && a.sqes == Triples(Picks(-1, workers, n), a.accepted[..n], a.given)
  }

  lemma AcceptKeepsAllSent(a: Acc, workers: nat, res: int)
    requires workers > 0 && AllSent(a, workers)
    ensures AllSent(OnAccepted(a, res), workers)
  {
    var n := |a.accepted| - |a.awaiting|;
    assert (a.accepted + [res])[..n] == a.accepted[..n];
  }

  lemma ResumeKeepsAllSent(a: Acc, workers: nat, func: FuncId)
    requires workers > 0 && -1 <= a.current < workers && AllSent(a, workers)
    ensures AllSent(OnResume(a, workers, func), workers)
  {
    if !a.pending {
      SentOff(a, workers, func, |a.accepted| - |a.awaiting|);
      assert a.accepted[|a.accepted|..] == [];
    }
  }

  // The sockets accepted: the results of the accepts that have not failed, slot 0 among them.
  function AcceptedIn(ls: seq<Label>): seq<int> {
    if ls == [] then [] else
    var l := ls[|ls| - 1];
    AcceptedIn(ls[..|ls| - 1]) + if l.Accepted? && l.res >= 0 then [l.res] else []
  }

  lemma {:induction false} AcceptedAre(ls: seq<Label>, workers: nat, func: FuncId)
    requires workers > 0
    ensures RunFrom(ls, workers, func).accepted == AcceptedIn(ls)
  {
    if ls != [] { AcceptedAre(ls[..|ls| - 1], workers, func); }
  }

  /** Every accepted socket is sent off once, in order, as one linked triple to the next worker in turn;
      those not yet sent off are the ones that wait. */
  lemma EveryAcceptIsSent(ls: seq<Label>, workers: nat, func: FuncId)
    requires workers > 0
    ensures var a, all := RunFrom(ls, workers, func), AcceptedIn(ls);
      && |a.awaiting| <= |all|
      && var n := |all| - |a.awaiting|;
      && all[n..] == a.awaiting && a.current == After(-1, workers, n)
      && |a.given| == n && a.sqes == Triples(Picks(-1, workers, n), all[..n], a.given)
  {
    AllSentInRun(ls, workers, func);
    AcceptedAre(ls, workers, func);
  }

  /** So the i-th accepted socket, once it is sent off, is the subject of three submissions: its descriptor
      to worker i mod w, with a receiver token, then the task with its function to the same worker,
      then the close of its own slot, the first two linked to what follows them. */
  lemma SubmittedFor(ls: seq<Label>, workers: nat, func: FuncId, i: nat)
    requires workers > 0 && i + |RunFrom(ls, workers, func).awaiting| < |AcceptedIn(ls)|
    ensures var a, slot := RunFrom(ls, workers, func), AcceptedIn(ls)[i];
      && i < |a.given| && 3 * i + 2 < |a.sqes|
      && a.sqes[3 * i]
         == SendFd(i % workers, slot, Token(MultishotAcceptFdReceiver, 0, -38, 0), {Link, SkipSuccess})
      && a.sqes[3 * i + 1] == SendTask(i % workers, MultiMessage(a.given[i]), {Link, SkipSuccess})
      && a.sqes[3 * i + 2] == CloseDirect(slot, {SkipSuccess})
  {
    EveryAcceptIsSent(ls, workers, func);
    var a, all := RunFrom(ls, workers, func), AcceptedIn(ls);
    var n := |all| - |a.awaiting|;
    TripleAt(Picks(-1, workers, n), all[..n], a.given, i);
    PickAt(-1, workers, n, i);
  }

  /** Any completion of the accept wakes the root, a failure too. */
  lemma AcceptWakes(ls: seq<Label>, workers: nat, func: FuncId, res: int)
    requires workers > 0
    ensures !RunFrom(ls + [Accepted(res)], workers, func).pending
  {
    assert (ls + [Accepted(res)])[..|ls|] == ls;
  }

  lemma {:induction false} AllSentInRun(ls: seq<Label>, workers: nat, func: FuncId)
    requires workers > 0
    ensures AllSent(RunFrom(ls, workers, func), workers)
  {
    if ls == [] {
      AllSentAtFirst(workers);
    } else {
      var before := RunFrom(ls[..|ls| - 1], workers, func);
      AllSentInRun(ls[..|ls| - 1], workers, func);
      StepKeepsAllSent(ls[|ls| - 1], before, workers, func);
    }
  }

  lemma AllSentAtFirst(workers: nat)
    requires workers > 0
    ensures AllSent(AT_FIRST, workers)
  {
    NoPicks(-1, workers);
    var n := |AT_FIRST.accepted| - |AT_FIRST.awaiting|;
    assert n == 0;
    assert Picks(-1, workers, n) == [];
    assert Triples([], AT_FIRST.accepted[..n], []) == [];
  }

  lemma NoPicks(idx: int, workers: nat)
    requires workers > 0 && -1 <= idx < workers
    ensures Picks(idx, workers, 0) == [] && After(idx, workers, 0) == idx
  {}

  lemma StepKeepsAllSent(l: Label, a: Acc, workers: nat, func: FuncId)
    requires workers > 0 && -1 <= a.current < workers && AllSent(a, workers)
    ensures AllSent(Apply(l, a, workers, func), workers)
  {
    match l
    case Accepted(res) => AcceptKeepsAllSent(a, workers, res);
    case Resume => ResumeKeepsAllSent(a, workers, func);
  }

  lemma SentOff(a: Acc, workers: nat, func: FuncId, n: nat)
    requires workers > 0 && n + |a.awaiting| == |a.accepted| && a.accepted[n..] == a.awaiting
    requires a.current == After(-1, workers, n) && |a.given| == n
    requires a.sqes == Triples(Picks(-1, workers, n), a.accepted[..n], a.given)
    ensures var m := |a.awaiting|;
      && After(a.current, workers, m) == After(-1, workers, |a.accepted|)
      && a.sqes + Triples(Picks(a.current, workers, m), a.awaiting, Handed(func, m))
         == Triples(Picks(-1, workers, |a.accepted|), a.accepted[..|a.accepted|], a.given + Handed(func, m))
  {
    var m := |a.awaiting|;
    PicksSplit(-1, workers, n, m);
    TriplesSplit(Picks(-1, workers, n), a.accepted[..n], a.given, Picks(a.current, workers, m), a.awaiting,
      Handed(func, m));
    assert a.accepted[..n] + a.awaiting == a.accepted[..|a.accepted|];
  }

  // The part of the run before `j` leaves at most one socket to the pass at `j`.
  ghost predicate DrainsOne(ls: seq<Label>, workers: nat, func: FuncId, j: nat)
    requires workers > 0 && j < |ls|
  {
    ls[j].Resume? ==> |RunFrom(ls[..j], workers, func).awaiting| <= 1
  }

  /** Every socket sent off comes with the function that is to serve it if and only if no pass has found
      two sockets or more waiting: the others of a drain get what std::move has left. */
  lemma {:induction false} AllServedIff(ls: seq<Label>, workers: nat, func: FuncId)
    requires workers > 0 && func != NO_FUNC
    ensures (forall i | 0 <= i < |RunFrom(ls, workers, func).given| :: RunFrom(ls, workers, func).given[i] == func)
      <==> forall j | 0 <= j < |ls| :: DrainsOne(ls, workers, func, j)
  {
    if ls != [] {
      var n := |ls| - 1;
      var init := ls[..n];
      var before, after := RunFrom(init, workers, func), RunFrom(ls, workers, func);
      AllServedIff(init, workers, func);
      NeverSleepsOnWork(init, workers, func);
      forall j | 0 <= j < n ensures DrainsOne(ls, workers, func, j) <==> DrainsOne(init, workers, func, j) {
        assert init[..j] == ls[..j];
      }
      if ls[n].Resume? && !before.pending {
        GivenNext(before.given, func, |before.awaiting|);
        assert DrainsOne(ls, workers, func, n) <==> |before.awaiting| <= 1;
        assert after.given == before.given + Handed(func, |before.awaiting|);
      } else {
        assert after.given == before.given && DrainsOne(ls, workers, func, n);
      }
    }
  }

  /** So with two sockets waiting the second is sent off without its function. */
  lemma SecondIsNotServed(workers: nat, func: FuncId)
    requires workers > 0
    ensures RunFrom([Accepted(3), Accepted(4), Resume], workers, func).given == [func, NO_FUNC]
  {
    var l1, l2, l3 := [Accepted(3)], [Accepted(3), Accepted(4)], [Accepted(3), Accepted(4), Resume];
    assert l1[..0] == [] && l2[..1] == l1 && l3[..2] == l2;
    assert RunFrom(l1, workers, func).awaiting == [3];
    assert RunFrom(l2, workers, func).awaiting == [3, 4] && !RunFrom(l2, workers, func).pending;
    assert Handed(func, 2) == [func, NO_FUNC];
  }

  lemma GivenNext(given: seq<FuncId>, func: FuncId, n: nat)
    requires func != NO_FUNC
    ensures var all := given + Handed(func, n);
      (forall i | 0 <= i < |all| :: all[i] == func) <==> (forall i | 0 <= i < |given| :: given[i] == func) && n <= 1
  {
    var all := given + Handed(func, n);
    if n > 1 { assert all[|given| + 1] == NO_FUNC; }
    forall i | 0 <= i < |given| ensures all[i] == given[i] {}
  }

  /** A resume that finds sockets waiting leaves none. */
  lemma ResumeDrains(ls: seq<Label>, workers: nat, func: FuncId)
    requires workers > 0
    ensures RunFrom(ls + [Resume], workers, func).awaiting == [] && RunFrom(ls + [Resume], workers, func).pending
    ensures var a := RunFrom(ls, workers, func);
      && var n := |a.awaiting|;
      RunFrom(ls + [Resume], workers, func).sqes
        == a.sqes + Triples(Picks(a.current, workers, n), a.awaiting, Handed(func, n))
  {
    assert (ls + [Resume])[..|ls|] == ls;
    NeverSleepsOnWork(ls, workers, func);
  }

  class Listener {
    const loop: SystemLoop
    const func: FuncId
    var pending: bool
    ghost var accepted: seq<int>
    ghost var given: seq<FuncId>

    ghost function A(): Acc
      reads this, loop, loop.ring
    {
      Acc(loop.ring.awaiting, pending, loop.current, loop.sqes, accepted, given)
    }

    constructor (loop: SystemLoop, func: FuncId)
      ensures this.loop == loop && this.func == func && !pending && accepted == [] && given == []
    {
      this.loop, this.func, pending, accepted, given := loop, func, false, [], [];
    }

    // The MultishotAccept branch of handle_request.
    method HandleAccept(res: int)
      modifies this, loop.ring`awaiting
      ensures A() == OnAccepted(old(A()), res)
    {
      if res >= 0 {
        loop.ring.awaiting := loop.ring.awaiting + [res];
        accepted := accepted + [res];
      }
      pending := false;
    }

    // The root's part of a pass: the loop of multishot_accept_then goes round once.
    method Visit()
      requires loop.Valid()
      modifies `pending, `given, loop`current, loop`sqes, loop.ring`awaiting
      ensures loop.Valid() && A() == OnResume(old(A()), loop.workers, func)
    {
      if !pending {
        given := given + Handed(func, |loop.ring.awaiting|);
        loop.MshotAcceptSendAwaitingFdAndProcess(func);
        pending := true;
      }
    }
  }
}
