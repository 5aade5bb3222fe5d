/** terminate() as a program, and as the main thread's part of the shutdown protocol. */
module TerminationRuns {
  import opened Common
  import opened MainLoop
  import opened Shutdown

  // What the program does at a step of the main thread.
  function EventsOf(l: Label, w: World): seq<Event> {
    if l.RequestStop? && w.main.Stopping? && w.main.next < |w.workers| then [StopRequested(w.main.next)]
    else if l.Notify? && w.main.Notifying? then
      if w.main.next < |w.workers| then [Sent(QuitMessage(w.main.next))] else Rest()
    else []
  }

  function Events(ls: seq<Label>, ws: seq<World>): seq<Event>
    requires |ws| == |ls| + 1
  {
    if ls == [] then [] else
    var n := |ls| - 1;
    Events(ls[..n], ws[..|ls|]) + EventsOf(ls[n], ws[n])
  }

  // What has been done when the main thread stands at `main`, with `n` workers.
  function SoFar(main: MainPc, n: nat): seq<Event> {
    match main
    case Running => []
    case Stopping(next) => Stops(next)
    case Notifying(next) => Stops(n) + Quits(next)
    case Done => Termination(n)
  }

  predicate InRange(main: MainPc, n: nat) { main.Stopping? || main.Notifying? ==> main.next <= n }

  lemma OneMoreEvent(l: Label, w: World)
    requires CanDo(l, w) && InRange(w.main, |w.workers|)
    ensures var w' := Do(l, w);
      && |w'.workers| == |w.workers| && InRange(w'.main, |w.workers|)
      && SoFar(w'.main, |w.workers|) == SoFar(w.main, |w.workers|) + EventsOf(l, w)
  {
    if l.RequestStop? && w.main.next < |w.workers| {
      assert Stops(w.main.next + 1) == Stops(w.main.next) + [StopRequested(w.main.next)];
    }
    if l.Notify? && w.main.next < |w.workers| {
      assert Quits(w.main.next + 1) == Quits(w.main.next) + [Sent(QuitMessage(w.main.next))];
    }
  }

  /** In every run of the shutdown protocol, whatever the workers and the kernel do meanwhile, what the
      main thread has done is the part of terminate()'s list of actions that it stands behind; it
      is done when that is the whole list. */
  lemma {:induction false} MainFollowsTermination(ls: seq<Label>, ws: seq<World>)
    requires IsRun(ls, ws)
    ensures |ws[|ls|].workers| == |ws[0].workers| && InRange(ws[|ls|].main, |ws[0].workers|)
    ensures Events(ls, ws) == SoFar(ws[|ls|].main, |ws[0].workers|) <= Termination(|ws[0].workers|)
    ensures ws[|ls|].main.Done? <==> Events(ls, ws) == Termination(|ws[0].workers|)
  {
    if ls != [] {
      var n := |ls| - 1;
      RunBefore(ls, ws, n);
      MainFollowsTermination(ls[..n], ws[..|ls|]);
      assert StepOf(ls, ws, n);
      OneMoreEvent(ls[n], ws[n]);
    }
    PartOfTermination(ws[|ls|].main, |ws[0].workers|);
  }

  lemma RunBefore(ls: seq<Label>, ws: seq<World>, n: nat)
    requires IsRun(ls, ws) && n + 1 == |ls|
    ensures IsRun(ls[..n], ws[..|ls|])
  {
    forall i | 0 <= i < n ensures StepOf(ls[..n], ws[..|ls|], i) { assert StepOf(ls, ws, i); }
  }

  lemma PartOfTermination(main: MainPc, n: nat)
    requires InRange(main, n)
    ensures SoFar(main, n) <= Termination(n)
    ensures main.Done? <==> SoFar(main, n) == Termination(n)
  {
    assert |Termination(n)| == n + n + 4;
  }

  lemma RunGoesOn(ls: seq<Label>, ws: seq<World>, l: Label) returns (ls': seq<Label>, ws': seq<World>)
    requires IsRun(ls, ws) && CanDo(l, ws[|ls|])
    ensures IsRun(ls', ws') && ls' == ls + [l] && ws'[0] == ws[0] && ws'[|ls'|] == Do(l, ws[|ls|])
  {
    ls', ws' := ls + [l], ws + [Do(l, ws[|ls|])];
    forall i | 0 <= i < |ls'| ensures StepOf(ls', ws', i) {
      if i < |ls| { assert StepOf(ls, ws, i); }
    }
  }

  // What the main thread has still to do.
  function Left(main: MainPc, n: nat): int {
    match main
    case Running => n + n + 3
    case Stopping(next) => n - next + n + 2
    case Notifying(next) => n - next + 1
    case Done => 0
  }

  // The main thread's next step.
  lemma NextOfMain(w: World) returns (l: Label)
    requires InRange(w.main, |w.workers|) && !w.main.Done?
    ensures l.Terminate? || l.RequestStop? || l.Notify?
    ensures CanDo(l, w) && 0 <= Left(Do(l, w).main, |w.workers|) < Left(w.main, |w.workers|)
  {
    match w.main
    case Running => l := Terminate;
    case Stopping(_) => l := RequestStop;
    case Notifying(_) =>
      var token := Unused(w.mem.Keys);
      l := Notify(token);
  }

  /** And from every state of every run the main thread can do all of the list by itself. */
  lemma {:induction false} TerminationIsARun(ls: seq<Label>, ws: seq<World>) returns (ls': seq<Label>, ws': seq<World>)
    requires IsRun(ls, ws)
    ensures IsRun(ls', ws') && ls <= ls' && ws'[0] == ws[0] && Events(ls', ws') == Termination(|ws[0].workers|)
    ensures forall i | |ls| <= i < |ls'| :: ls'[i].Terminate? || ls'[i].RequestStop? || ls'[i].Notify?
    decreases Left(ws[|ls|].main, |ws[|ls|].workers|)
  {
    MainFollowsTermination(ls, ws);
    if ws[|ls|].main.Done? {
      ls', ws' := ls, ws;
    } else {
      var l := NextOfMain(ws[|ls|]);
      OneMoreEvent(l, ws[|ls|]);
      var ls1, ws1 := RunGoesOn(ls, ws, l);
      ls', ws' := TerminationIsARun(ls1, ws1);
      assert ls'[|ls|] == ls1[|ls|];
    }
  }
}
