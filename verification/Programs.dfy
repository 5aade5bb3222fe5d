/** Coroutine bodies, and what they mean when read as ordinary sequential code.

  A body is a transition system: `Local` is whatever its frame remembers between two suspension
  points, and a `Code` says what the body does next from there. Loops, branches and try/catch are
  all expressible, because a continuation is any function of what the `co_await` produced; bodies
  may run for ever. */
module Programs {
  import opened Common

  type Local(!new)
  type Value(!new)
  type Exn(!new)
  type Request(!new)

  datatype Outcome = Returned(value: Value) | Raised(exn: Exn)

  datatype Instr =
    | Return(value: Value)
    | Throw(exn: Exn)
    | Await(callee: Local, onJoin: Outcome -> Local)
    | Io(req: Request, onDone: Completion -> Local)
    | Spawn(child: Local, next: Local)

  type Code = Local -> Instr

  datatype Event =
    | Issued(req: Request)
    | Completed(with: Completion)
    | Joined(outcome: Outcome)
    | Spawned(child: Local)

  datatype End = Done(outcome: Outcome) | Blocked | OutOfFuel
  datatype Run = Run(trace: seq<Event>, end: End, rest: seq<Completion>)

  function Prepend(es: seq<Event>, r: Run): Run { r.(trace := es + r.trace) }

  /** Direct-style evaluation: an awaited task is a procedure call, an I/O operation takes the next
      completion from the input, and evaluation blocks when the input is used up. */
  ghost function Direct(code: Code, c: Local, ins: seq<Completion>, fuel: nat): Run
    decreases fuel, 0
  {
    if fuel == 0 then Run([], OutOfFuel, ins) else
    match code(c)
    case Return(v) => Run([], Done(Returned(v)), ins)
    case Throw(e) => Run([], Done(Raised(e)), ins)
    case Spawn(child, next) => Prepend([Spawned(child)], Direct(code, next, ins, fuel - 1))
    case Io(req, k) => Prepend([Issued(req)], AfterIo(code, k, ins, fuel - 1))
    case Await(callee, k) =>
      var r := Direct(code, callee, ins, fuel - 1);
      if r.end.Done? then Join(code, r, k, fuel - 1) else r
  }

  ghost function AfterIo(code: Code, k: Completion -> Local, ins: seq<Completion>, fuel: nat): Run
    decreases fuel, 1
  {
    if ins == [] then Run([], Blocked, [])
    else Prepend([Completed(ins[0])], Direct(code, k(ins[0]), ins[1..], fuel))
  }

  // The caller goes on with the callee's value or exception.
  ghost function Join(code: Code, r: Run, k: Outcome -> Local, fuel: nat): Run
    requires r.end.Done?
    decreases fuel, 1
  {
    Prepend(r.trace + [Joined(r.end.outcome)], Direct(code, k(r.end.outcome), r.rest, fuel))
  }

  // An evaluation that ended does not change when it is given more fuel.
  lemma {:induction false} FuelStep(code: Code, c: Local, ins: seq<Completion>, n: nat)
    requires Direct(code, c, ins, n).end != OutOfFuel
    ensures Direct(code, c, ins, n + 1) == Direct(code, c, ins, n)
    decreases n
  {
    match code(c)
    case Return(v) =>
    case Throw(e) =>
    case Spawn(child, next) => FuelStep(code, next, ins, n - 1);
    case Io(req, k) => if ins != [] { FuelStep(code, k(ins[0]), ins[1..], n - 1); }
    case Await(callee, k) =>
      FuelStep(code, callee, ins, n - 1);
      var r := Direct(code, callee, ins, n - 1);
      if r.end.Done? { FuelStep(code, k(r.end.outcome), r.rest, n - 1); }
  }

  lemma {:induction false} FuelMonotone(code: Code, c: Local, ins: seq<Completion>, n: nat, m: nat)
    requires n <= m && Direct(code, c, ins, n).end != OutOfFuel
    ensures Direct(code, c, ins, m) == Direct(code, c, ins, n)
    decreases m
  {
    if n < m { FuelMonotone(code, c, ins, n, m - 1); FuelStep(code, c, ins, m - 1); }
  }

  // Fuel is only a proof device: two evaluations that both end agree.
  lemma DirectIsDeterministic(code: Code, c: Local, ins: seq<Completion>, n: nat, m: nat)
    requires Direct(code, c, ins, n).end != OutOfFuel && Direct(code, c, ins, m).end != OutOfFuel
    ensures Direct(code, c, ins, n) == Direct(code, c, ins, m)
  {
    if n <= m { FuelMonotone(code, c, ins, n, m); } else { FuelMonotone(code, c, ins, m, n); }
  }
}

/** A suspended or running chain of coroutines, read as one configuration: what its leaf does next
    and the continuations of the callers waiting above it, innermost first. */
module Chains {
  import opened Common
  import opened Programs

  datatype Now = AtCode(c: Local) | AtIo(k: Completion -> Local) | AtEnd(o: Outcome)
  datatype Config = Config(now: Now, ks: seq<Outcome -> Local>)

  // One transition of a configuration, with what it shows and what it reads.
  datatype Move = Move(events: seq<Event>, input: seq<Completion>, after: Config)

  ghost function EvalNow(code: Code, now: Now, ins: seq<Completion>, n: nat): Run {
    match now
    case AtCode(c) => Direct(code, c, ins, n)
    case AtIo(k) => AfterIo(code, k, ins, n)
    case AtEnd(o) => Run([], Done(o), ins)
  }

  ghost function Feed(code: Code, r: Run, ks: seq<Outcome -> Local>, n: nat): Run
    decreases |ks|
  {
    if ks == [] || !r.end.Done? then r else Feed(code, Join(code, r, ks[0], n), ks[1..], n)
  }

  // Direct-style evaluation of the rest of a chain.
  ghost function Eval(code: Code, cfg: Config, ins: seq<Completion>, n: nat): Run {
    Feed(code, EvalNow(code, cfg.now, ins, n), cfg.ks, n)
  }

  // What a chain does next; `x` is the completion an I/O operation resumes with.
  ghost function Next(code: Code, cfg: Config, x: Completion): Move
    requires !cfg.now.AtEnd?
  {
    match cfg.now
    case AtIo(k) => Move([Completed(x)], [x], Config(AtCode(k(x)), cfg.ks))
    case AtCode(c) =>
      match code(c)
      case Spawn(child, next) => Move([Spawned(child)], [], Config(AtCode(next), cfg.ks))
      case Io(req, k) => Move([Issued(req)], [], Config(AtIo(k), cfg.ks))
      case Await(callee, k) => Move([], [], Config(AtCode(callee), [k] + cfg.ks))
      case Return(v) => Finish(Returned(v), cfg.ks)
      case Throw(e) => Finish(Raised(e), cfg.ks)
  }

  ghost function Finish(o: Outcome, ks: seq<Outcome -> Local>): Move {
    if ks == [] then Move([], [], Config(AtEnd(o), []))
    else Move([Joined(o)], [], Config(AtCode(ks[0](o)), ks[1..]))
  }

  lemma {:induction false} FeedPrepend(code: Code, es: seq<Event>, r: Run, ks: seq<Outcome -> Local>, n: nat)
    ensures Feed(code, Prepend(es, r), ks, n) == Prepend(es, Feed(code, r, ks, n))
    decreases |ks|
  {
    if ks != [] && r.end.Done? {
      var j := Join(code, r, ks[0], n);
      assert Join(code, Prepend(es, r), ks[0], n) == Prepend(es, j) by {
        assert es + r.trace + [Joined(r.end.outcome)] == es + (r.trace + [Joined(r.end.outcome)]);
      }
      FeedPrepend(code, es, j, ks[1..], n);
    }
  }

  lemma {:induction false} FeedFuel(code: Code, r: Run, ks: seq<Outcome -> Local>, n: nat)
    requires Feed(code, r, ks, n).end != OutOfFuel
    ensures Feed(code, r, ks, n + 1) == Feed(code, r, ks, n)
    decreases |ks|
  {
    if ks != [] && r.end.Done? {
      var j := Join(code, r, ks[0], n);
      if j.end != OutOfFuel { FuelStep(code, ks[0](r.end.outcome), r.rest, n); }
      FeedFuel(code, j, ks[1..], n);
    }
  }

  lemma FinishIsEvaluation(code: Code, o: Outcome, ks: seq<Outcome -> Local>, ins: seq<Completion>, n: nat)
    requires Eval(code, Finish(o, ks).after, ins, n).end != OutOfFuel
    ensures var mv := Finish(o, ks);
      Feed(code, Run([], Done(o), ins), ks, n + 1) == Prepend(mv.events, Eval(code, mv.after, ins, n))
  {
    if ks != [] {
      var r := Direct(code, ks[0](o), ins, n);
      FeedPrepend(code, [Joined(o)], r, ks[1..], n);
      assert [] + [Joined(o)] == [Joined(o)];
      if r.end != OutOfFuel { FuelStep(code, ks[0](o), ins, n); }
      FeedFuel(code, Prepend([Joined(o)], r), ks[1..], n);
    }
  }

  // The heart of the simulation: one transition of a chain is one step of direct-style evaluation.
  lemma NextIsEvaluation(code: Code, cfg: Config, x: Completion, ins: seq<Completion>, n: nat)
    requires !cfg.now.AtEnd?
    requires Eval(code, Next(code, cfg, x).after, ins, n).end != OutOfFuel
    ensures var mv := Next(code, cfg, x);
      Eval(code, cfg, mv.input + ins, n + 1) == Prepend(mv.events, Eval(code, mv.after, ins, n))
  {
    var mv := Next(code, cfg, x);
    var r := EvalNow(code, mv.after.now, ins, n);
    FeedFuel(code, r, mv.after.ks, n);
    FeedPrepend(code, mv.events, r, mv.after.ks, n + 1);
    if r.end == OutOfFuel { assert false; }
    match cfg.now
    case AtIo(k) =>
      FuelStep(code, k(x), ins, n);
      assert ([x] + ins)[1..] == ins;
    case AtCode(c) =>
      assert [] + ins == ins;
      match code(c)
      case Await(callee, k) =>
        assert ([k] + cfg.ks)[1..] == cfg.ks;
        if r.end.Done? { FeedFuel(code, Join(code, r, k, n), cfg.ks, n); }
      case Spawn(child, next) =>
      case Io(req, k) =>
      case Return(v) => FinishIsEvaluation(code, Returned(v), cfg.ks, ins, n);
      case Throw(e) => FinishIsEvaluation(code, Raised(e), cfg.ks, ins, n);
  }

  // And back: if evaluation from a configuration ends, so does evaluation from the next one.
  lemma EvaluationOfNext(code: Code, cfg: Config, x: Completion, ins: seq<Completion>, n: nat)
    requires !cfg.now.AtEnd?
    requires Eval(code, cfg, Next(code, cfg, x).input + ins, n).end != OutOfFuel
    ensures Eval(code, Next(code, cfg, x).after, ins, n).end != OutOfFuel
  {
    var mv := Next(code, cfg, x);
    match cfg.now
    case AtIo(k) =>
      assert ([x] + ins)[1..] == ins;
      FeedPrepend(code, [Completed(x)], Direct(code, k(x), ins, n), cfg.ks, n);
    case AtCode(c) =>
      assert [] + ins == ins;
      var r := EvalNow(code, mv.after.now, ins, n);
      match code(c)
      case Spawn(child, next) =>
        var d := Direct(code, next, ins, n - 1);
        FeedPrepend(code, mv.events, d, cfg.ks, n);
        FuelStep(code, next, ins, n - 1);
      case Io(req, k) =>
        var d := AfterIo(code, k, ins, n - 1);
        FeedPrepend(code, mv.events, d, cfg.ks, n);
        if ins != [] { FuelStep(code, k(ins[0]), ins[1..], n - 1); }
      case Await(callee, k) => EvaluationOfAwait(code, c, cfg.ks, ins, n);
      case Return(v) => EvaluationOfFinish(code, Returned(v), cfg.ks, ins, n);
      case Throw(e) => EvaluationOfFinish(code, Raised(e), cfg.ks, ins, n);
  }

  lemma EvaluationOfAwait(code: Code, c: Local, ks: seq<Outcome -> Local>, ins: seq<Completion>, n: nat)
    requires code(c).Await? && Eval(code, Config(AtCode(c), ks), ins, n).end != OutOfFuel
    ensures Eval(code, Config(AtCode(code(c).callee), [code(c).onJoin] + ks), ins, n).end != OutOfFuel
  {
    var Await(callee, k) := code(c);
    assert ([k] + ks)[1..] == ks;
    var d := Direct(code, callee, ins, n - 1);
    FuelStep(code, callee, ins, n - 1);
    if d.end.Done? {
      assert Direct(code, c, ins, n) == Join(code, d, k, n - 1);
      FuelStep(code, k(d.end.outcome), d.rest, n - 1);
      assert Join(code, d, k, n) == Join(code, d, k, n - 1);
      assert Feed(code, d, [k] + ks, n) == Feed(code, Join(code, d, k, n), ks, n);
    }
  }

  lemma EvaluationOfFinish(code: Code, o: Outcome, ks: seq<Outcome -> Local>, ins: seq<Completion>, n: nat)
    requires Feed(code, Run([], Done(o), ins), ks, n).end != OutOfFuel
    ensures Eval(code, Finish(o, ks).after, ins, n).end != OutOfFuel
  {
    if ks != [] { FeedPrepend(code, [] + [Joined(o)], Direct(code, ks[0](o), ins, n), ks[1..], n); }
  }

  // A chain left to itself: it moves until it waits for I/O or ends.
  ghost function Settle(code: Code, cfg: Config, n: nat): Move
    decreases n
  {
    if n == 0 || !cfg.now.AtCode? then Move([], [], cfg) else
    var mv := Next(code, cfg, NO_COMPLETION);
    var more := Settle(code, mv.after, n - 1);
    Move(mv.events + more.events, [], more.after)
  }

  const NO_COMPLETION := Completion(0, 0)

  lemma {:induction false} SettleSplit(code: Code, cfg: Config, n: nat, m: nat)
    ensures var first, whole := Settle(code, cfg, n), Settle(code, cfg, n + m);
      && whole.after == Settle(code, first.after, m).after
      && whole.events == first.events + Settle(code, first.after, m).events
    decreases n
  {
    if n != 0 && cfg.now.AtCode? { SettleSplit(code, Next(code, cfg, NO_COMPLETION).after, n - 1, m); }
  }

  // A call that direct-style evaluation completes or blocks in is walked through in some number of moves.
  lemma {:induction false} CallSettles(code: Code, c: Local, ks: seq<Outcome -> Local>, n: nat) returns (m: nat)
    requires Direct(code, c, [], n).end != OutOfFuel
    ensures var d, s := Direct(code, c, [], n), Settle(code, Config(AtCode(c), ks), m).after;
      && d.rest == []
      && (d.end.Blocked? ==> s.now.AtIo?)
      && (d.end.Done? ==> s == Finish(d.end.outcome, ks).after)
    decreases n
  {
    var cfg := Config(AtCode(c), ks);
    var mv := Next(code, cfg, NO_COMPLETION);
    match code(c)
    case Return(v) => m := 1; assert Settle(code, mv.after, 0).after == mv.after;
    case Throw(e) => m := 1; assert Settle(code, mv.after, 0).after == mv.after;
    case Io(req, k) => m := 1; assert Settle(code, mv.after, 0).after == mv.after;
    case Spawn(child, next) =>
      var m1 := CallSettles(code, next, ks, n - 1);
      m := m1 + 1;
    case Await(callee, k) =>
      var r := Direct(code, callee, [], n - 1);
      var m1 := CallSettles(code, callee, [k] + ks, n - 1);
      m := m1 + 1;
      if r.end.Done? {
        assert ([k] + ks)[1..] == ks;
        var m2 := CallSettles(code, k(r.end.outcome), ks, n - 1);
        SettleSplit(code, cfg, m, m2);
        m := m + m2;
      }
  }

  lemma {:induction false} EvaluatedSettles(code: Code, cfg: Config, n: nat) returns (m: nat)
    requires Eval(code, cfg, [], n).end != OutOfFuel
    ensures !Settle(code, cfg, m).after.now.AtCode?
    decreases |cfg.ks|
  {
    m := 0;
    if cfg.now.AtCode? {
      var d := Direct(code, cfg.now.c, [], n);
      m := CallSettles(code, cfg.now.c, cfg.ks, n);
      if d.end.Done? && cfg.ks != [] {
        var next := Config(AtCode(cfg.ks[0](d.end.outcome)), cfg.ks[1..]);
        FeedTail(code, d, cfg.ks, n);
        var m2 := EvaluatedSettles(code, next, n);
        SettleSplit(code, cfg, m, m2);
        m := m + m2;
      }
    }
  }

  lemma FeedTail(code: Code, r: Run, ks: seq<Outcome -> Local>, n: nat)
    requires r.end.Done? && r.rest == [] && ks != []
    ensures Feed(code, r, ks, n).end == Eval(code, Config(AtCode(ks[0](r.end.outcome)), ks[1..]), [], n).end
  {
    FeedPrepend(code, r.trace + [Joined(r.end.outcome)], Direct(code, ks[0](r.end.outcome), [], n), ks[1..], n);
  }
}
