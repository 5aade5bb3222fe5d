/** The frame machine means what its coroutines mean when read as sequential code. */
module Meaning {
  import opened Common
  import opened Programs
  import opened Chains
  import opened Coroutines
  import opened ChainInvariant

  ghost function NowOf(p: Point): Now
    requires !p.InTask?
  {
    match p
    case Body(c) => AtCode(c)
    case InIo(_, k) => AtIo(k)
    case Final(o) => AtEnd(o)
  }

  // The configuration a chain of frames stands for.
  ghost function ConfigOf(fs: map<Addr, Frame>, r: int, ch: seq<Addr>): Config
    requires Shape(fs, r, ch)
  {
    Config(NowOf(fs[ch[0]].point), seq(|ch| - 1, i requires 0 <= i < |ch| - 1 => fs[ch[i + 1]].point.onJoin))
  }

  /** All that is still to come for a root, put after what it has shown, is its direct-style
      meaning; and one of the two goes on for ever only if the other does. */
  ghost predicate Follows(code: Code, p: Past, cfg: Config) {
    && (forall ins, n: nat | Eval(code, cfg, ins, n).end != OutOfFuel ::
          Direct(code, p.start, p.got + ins, n + p.steps) == Prepend(p.log, Eval(code, cfg, ins, n)))
    && (forall ins, n: nat | Direct(code, p.start, p.got + ins, n).end != OutOfFuel :: Ends(code, cfg, ins))
  }

  ghost predicate Ends(code: Code, cfg: Config, ins: seq<Completion>) {
    exists n: nat :: Eval(code, cfg, ins, n).end != OutOfFuel
  }

  ghost predicate RootFollows(code: Code, w: World, r: nat)
    requires r < |w.past|
  {
    Shape(w.s.frames, r, w.past[r].chain) && Follows(code, w.past[r], ConfigOf(w.s.frames, r, w.past[r].chain))
  }

  ghost predicate MeaningInv(code: Code, w: World) {
    Inv(w) && (w.s.control.Idle? || w.s.control.Running? ==>
      forall r {:trigger RootFollows(code, w, r)} | 0 <= r < |w.past| :: RootFollows(code, w, r))
  }

  lemma FollowsNext(code: Code, p: Past, cfg: Config, x: Completion, p': Past)
    requires Follows(code, p, cfg) && !cfg.now.AtEnd?
    requires var mv := Next(code, cfg, x);
      p'.start == p.start && p'.got == p.got + mv.input && p'.log == p.log + mv.events && p'.steps == p.steps + 1
    ensures Follows(code, p', Next(code, cfg, x).after)
  {
    var mv := Next(code, cfg, x);
    forall ins, n: nat | Eval(code, mv.after, ins, n).end != OutOfFuel
      ensures Direct(code, p'.start, p'.got + ins, n + p'.steps) == Prepend(p'.log, Eval(code, mv.after, ins, n))
    {
      NextIsEvaluation(code, cfg, x, ins, n);
      var r := Eval(code, cfg, mv.input + ins, n + 1);
      assert p.got + (mv.input + ins) == p'.got + ins;
      assert n + 1 + p.steps == n + p'.steps;
      assert p.log + (mv.events + Eval(code, mv.after, ins, n).trace) == p'.log + Eval(code, mv.after, ins, n).trace;
    }
    forall ins, n: nat | Direct(code, p'.start, p'.got + ins, n).end != OutOfFuel ensures Ends(code, mv.after, ins) {
      assert p.got + (mv.input + ins) == p'.got + ins;
      assert Ends(code, cfg, mv.input + ins);
      var m: nat :| Eval(code, cfg, mv.input + ins, m).end != OutOfFuel;
      EvaluationOfNext(code, cfg, x, ins, m);
    }
  }

  lemma NewRootFollows(code: Code, c: Local, a: Addr)
    ensures Follows(code, NewPast(c, a), Config(AtCode(c), []))
  {
    forall ins, n: nat | Eval(code, Config(AtCode(c), []), ins, n).end != OutOfFuel
      ensures Direct(code, c, [] + ins, n + 0) == Prepend([], Eval(code, Config(AtCode(c), []), ins, n))
    {
      assert [] + ins == ins;
    }
    forall ins, n: nat | Direct(code, c, [] + ins, n).end != OutOfFuel ensures Ends(code, Config(AtCode(c), []), ins) {
      assert [] + ins == ins;
      assert Eval(code, Config(AtCode(c), []), ins, n).end != OutOfFuel;
    }
  }

  // Two points a chain goes on from alike: a token's contents are not looked at until it is read.
  ghost predicate SamePoint(p: Point, q: Point) {
    p == q || (p.InIo? && q.InIo? && p.onDone == q.onDone)
  }

  lemma SameConfig(fs: map<Addr, Frame>, fs': map<Addr, Frame>, r: int, ch: seq<Addr>)
    requires Shape(fs, r, ch) && Shape(fs', r, ch)
    requires forall a | a in ch :: SamePoint(fs[a].point, fs'[a].point)
    ensures ConfigOf(fs', r, ch) == ConfigOf(fs, r, ch)
  {
    assert ConfigOf(fs', r, ch).ks == ConfigOf(fs, r, ch).ks;
  }

  // The completion the running leaf would read.
  ghost function Reading(s: State): Completion
    requires s.control.Running? && s.control.frame in s.frames
  {
    var p := s.frames[s.control.frame].point;
    if p.InIo? then p.token.with else NO_COMPLETION
  }

  // How the configuration changes with the three changes of a chain.
  lemma LeafConfig(fs: map<Addr, Frame>, r: int, ch: seq<Addr>, p: Point)
    requires Shape(fs, r, ch) && !p.InTask? && (p.Final? ==> |ch| == 1)
    ensures var fs' := fs[ch[0] := fs[ch[0]].(point := p)];
      Shape(fs', r, ch) && ConfigOf(fs', r, ch) == ConfigOf(fs, r, ch).(now := NowOf(p))
  {
    LeafMoves(fs, r, ch, p);
    var fs' := fs[ch[0] := fs[ch[0]].(point := p)];
    assert ConfigOf(fs', r, ch).ks == ConfigOf(fs, r, ch).ks;
  }

  lemma PushConfig(fs: map<Addr, Frame>, r: int, ch: seq<Addr>, a: Addr, c: Local, k: Outcome -> Local)
    requires Shape(fs, r, ch) && a !in fs && a != NULL && fs[ch[0]].point.Body?
    ensures var fs' := fs[ch[0] := fs[ch[0]].(point := InTask(a, k))][a := Frame(Body(c), ch[0], r)];
      Shape(fs', r, [a] + ch) && ConfigOf(fs', r, [a] + ch) == Config(AtCode(c), [k] + ConfigOf(fs, r, ch).ks)
  {
    CalleePushed(fs, r, ch, a, c, k);
    var fs' := fs[ch[0] := fs[ch[0]].(point := InTask(a, k))][a := Frame(Body(c), ch[0], r)];
    assert ConfigOf(fs', r, [a] + ch).ks == [k] + ConfigOf(fs, r, ch).ks;
  }

  lemma PopConfig(fs: map<Addr, Frame>, r: int, ch: seq<Addr>, c: Local)
    requires Shape(fs, r, ch) && |ch| > 1
    ensures var fs' := fs[ch[1] := fs[ch[1]].(point := Body(c))] - {ch[0]};
      Shape(fs', r, ch[1..]) && ConfigOf(fs', r, ch[1..]) == Config(AtCode(c), ConfigOf(fs, r, ch).ks[1..])
  {
    CalleePopped(fs, r, ch, c);
    var fs' := fs[ch[1] := fs[ch[1]].(point := Body(c))] - {ch[0]};
    assert ConfigOf(fs', r, ch[1..]).ks == ConfigOf(fs, r, ch).ks[1..];
  }

  lemma FinalConfig(code: Code, w: World, r: nat, f: Addr, p: Past, o: Outcome)
    requires AtWork(w, r, f, p) && f in w.s.frames && w.s.frames[f].point.Body? && r < |w.s.tasks|
    requires p.chain != [] && !FinalSuspend(w.s, r, f, o).control.Terminated?
    ensures var s' := FinalSuspend(w.s, r, f, o);
      var ch' := if w.s.frames[f].caller == NULL then p.chain else p.chain[1..];
      && Shape(w.s.frames, r, p.chain) && Shape(s'.frames, r, ch')
      && ConfigOf(s'.frames, r, ch') == Finish(o, ConfigOf(w.s.frames, r, p.chain).ks).after
  {
    LeafIsRunning(w, r, f, p);
    if |p.chain| > 1 {
      JoinEffect(w, r, f, p, o);
      PopConfig(w.s.frames, r, p.chain, w.s.frames[p.chain[1]].point.onJoin(o));
    } else {
      LeafConfig(w.s.frames, r, p.chain, Final(o));
      assert ConfigOf(w.s.frames, r, p.chain).ks == [];
    }
  }

  lemma SpawnConfig(w: World, r: nat, f: Addr, p: Past, c: Local, a: Addr, child: Local)
    requires AtWork(w, r, f, p) && f in w.s.frames && w.s.frames[f].point.Body? && w.s.Fresh(a)
    ensures var s' := Emplace(w.s.Moved(f, Body(c)), a, child);
      && Shape(w.s.frames, r, p.chain) && Shape(s'.frames, r, p.chain)
      && ConfigOf(s'.frames, r, p.chain) == ConfigOf(w.s.frames, r, p.chain).(now := AtCode(c))
  {
    LeafIsRunning(w, r, f, p);
    LeafConfig(w.s.frames, r, p.chain, Body(c));
    AddedConfig(w.s.frames[f := w.s.frames[f].(point := Body(c))], Emplace(w.s.Moved(f, Body(c)), a, child).frames, r,
      p.chain);
  }

  lemma AddedConfig(fs: map<Addr, Frame>, fs': map<Addr, Frame>, r: int, ch: seq<Addr>)
    requires Shape(fs, r, ch) && forall b | b in fs :: b in fs' && fs'[b] == fs[b]
    ensures Shape(fs', r, ch) && ConfigOf(fs', r, ch) == ConfigOf(fs, r, ch)
  {
    assert forall i | 0 <= i < |ch| :: ch[i] in fs && fs'[ch[i]] == fs[ch[i]];
    SameConfig(fs, fs', r, ch);
  }

  // `w'` is `w` after one move of root `r`'s configuration.
  ghost predicate IsMove(code: Code, w: World, w': World, r: nat, f: Addr, p: Past) {
    && f in w.s.frames && r < |w'.past|
    && Shape(w.s.frames, r, p.chain) && Shape(w'.s.frames, r, w'.past[r].chain)
    && var cfg := ConfigOf(w.s.frames, r, p.chain);
    && !cfg.now.AtEnd?
    && var mv := Next(code, cfg, if w.s.frames[f].point.InIo? then w.s.frames[f].point.token.with else NO_COMPLETION);
    && ConfigOf(w'.s.frames, r, w'.past[r].chain) == mv.after
    && w'.past[r] == Past(p.start, w'.past[r].chain, p.handled, p.got + mv.input, p.log + mv.events, p.steps + 1)
  }

  ghost predicate InBody(code: Code, w: World, a: Addr, r: nat, f: Addr, p: Past) {
    AtWork(w, r, f, p) && Enabled(DoWork(a), w) && f in w.s.frames && p.chain != [] && p.chain[0] == f
  }

  lemma IoIsMove(code: Code, w: World, a: Addr, r: nat, f: Addr, p: Past)
    requires InBody(code, w, a, r, f, p)
    requires w.s.frames[f].point.InIo? || (w.s.frames[f].point.Body? && code(w.s.frames[f].point.at).Io?)
    ensures IsMove(code, w, Apply(code, DoWork(a), w), r, f, p)
  {
    if w.s.frames[f].point.InIo? { ReadIsMove(code, w, a, r, f, p); } else { SubmitIsMove(code, w, a, r, f, p); }
  }

  lemma ReadIsMove(code: Code, w: World, a: Addr, r: nat, f: Addr, p: Past)
    requires InBody(code, w, a, r, f, p) && w.s.frames[f].point.InIo?
    ensures IsMove(code, w, Apply(code, DoWork(a), w), r, f, p)
  {
    LeafIsRunning(w, r, f, p);
    var InIo(token, k) := w.s.frames[f].point;
    LeafConfig(w.s.frames, r, p.chain, Body(k(token.with)));
  }

  lemma SubmitIsMove(code: Code, w: World, a: Addr, r: nat, f: Addr, p: Past)
    requires InBody(code, w, a, r, f, p) && w.s.frames[f].point.Body? && code(w.s.frames[f].point.at).Io?
    ensures IsMove(code, w, Apply(code, DoWork(a), w), r, f, p)
  {
    LeafIsRunning(w, r, f, p);
    LeafConfig(w.s.frames, r, p.chain, InIo(NEW_TOKEN.(chainTask := r), code(w.s.frames[f].point.at).onDone));
  }

  lemma AwaitIsMove(code: Code, w: World, a: Addr, r: nat, f: Addr, p: Past)
    requires InBody(code, w, a, r, f, p) && w.s.frames[f].point.Body? && code(w.s.frames[f].point.at).Await?
    ensures IsMove(code, w, Apply(code, DoWork(a), w), r, f, p)
  {
    LeafIsRunning(w, r, f, p);
    var Await(c, k) := code(w.s.frames[f].point.at);
    PushConfig(w.s.frames, r, p.chain, a, c, k);
    var w' := Apply(code, DoWork(a), w);
    assert w'.s.frames == w.s.frames[f := w.s.frames[f].(point := InTask(a, k))][a := Frame(Body(c), f, r)];
    assert w'.past[r].chain == [a] + p.chain;
  }

  lemma SpawnIsMove(code: Code, w: World, a: Addr, r: nat, f: Addr, p: Past)
    requires InBody(code, w, a, r, f, p) && w.s.frames[f].point.Body? && code(w.s.frames[f].point.at).Spawn?
    ensures IsMove(code, w, Apply(code, DoWork(a), w), r, f, p)
  {
    var Spawn(child, next) := code(w.s.frames[f].point.at);
    SpawnConfig(w, r, f, p, next, a, child);
  }

  lemma EndIsMove(code: Code, w: World, a: Addr, r: nat, f: Addr, p: Past, o: Outcome)
    requires InBody(code, w, a, r, f, p) && w.s.frames[f].point.Body?
    requires code(w.s.frames[f].point.at) == match o case Returned(v) => Return(v) case Raised(e) => Throw(e)
    requires !FinalSuspend(w.s, r, f, o).control.Terminated?
    ensures IsMove(code, w, Apply(code, DoWork(a), w), r, f, p)
  {
    FinalConfig(code, w, r, f, p, o);
    EndWorld(code, w, a, r, f, p, o);
    EndIsFinish(code, w, a, r, f, p, o);
    EndHistory(p, Apply(code, DoWork(a), w).past[r], o, ConfigOf(w.s.frames, r, p.chain).ks);
  }

  lemma EndIsFinish(code: Code, w: World, a: Addr, r: nat, f: Addr, p: Past, o: Outcome)
    requires InBody(code, w, a, r, f, p) && w.s.frames[f].point.Body?
    requires code(w.s.frames[f].point.at) == match o case Returned(v) => Return(v) case Raised(e) => Throw(e)
    ensures Shape(w.s.frames, r, p.chain)
    ensures var cfg := ConfigOf(w.s.frames, r, p.chain);
      !cfg.now.AtEnd? && Next(code, cfg, NO_COMPLETION) == Finish(o, cfg.ks) && (cfg.ks == [] <==> |p.chain| == 1)
  {
    LeafIsRunning(w, r, f, p);
    var cfg := ConfigOf(w.s.frames, r, p.chain);
    assert cfg.now == AtCode(w.s.frames[f].point.at);
    assert Next(code, cfg, NO_COMPLETION) == Finish(o, cfg.ks);
  }

  lemma EndHistory(p: Past, p': Past, o: Outcome, ks: seq<Outcome -> Local>)
    requires p' == p.(chain := p'.chain, steps := p.steps + 1, log := p.log + if ks == [] then [] else [Joined(o)])
    ensures p' == Past(p.start, p'.chain, p.handled, p.got + Finish(o, ks).input, p.log + Finish(o, ks).events,
                       p.steps + 1)
  {
  }

  lemma EndWorld(code: Code, w: World, a: Addr, r: nat, f: Addr, p: Past, o: Outcome)
    requires InBody(code, w, a, r, f, p) && w.s.frames[f].point.Body?
    requires code(w.s.frames[f].point.at) == match o case Returned(v) => Return(v) case Raised(e) => Throw(e)
    ensures var w' := Apply(code, DoWork(a), w);
      && w'.s == FinalSuspend(w.s, r, f, o)
      && (w.s.frames[f].caller == NULL <==> |p.chain| == 1)
      && w'.past[r] == p.(chain := if |p.chain| == 1 then p.chain else p.chain[1..], steps := p.steps + 1,
                          log := p.log + if |p.chain| == 1 then [] else [Joined(o)])
  {
    LeafIsRunning(w, r, f, p);
  }

  /** One piece of work on the heap of frames is one move of the configuration it stands for. */
  lemma WorkIsMove(code: Code, w: World, a: Addr, r: nat, f: Addr, p: Past)
    requires AtWork(w, r, f, p) && Enabled(DoWork(a), w) && !Apply(code, DoWork(a), w).s.control.Terminated?
    ensures IsMove(code, w, Apply(code, DoWork(a), w), r, f, p)
  {
    LeafIsRunning(w, r, f, p);
    match w.s.frames[f].point
    case InIo(token, k) => IoIsMove(code, w, a, r, f, p);
    case Body(c) =>
      match code(c) {
        case Return(v) => EndIsMove(code, w, a, r, f, p, Returned(v));
        case Throw(e) => EndIsMove(code, w, a, r, f, p, Raised(e));
        case Await(callee, k) => AwaitIsMove(code, w, a, r, f, p);
        case Io(req, k) => IoIsMove(code, w, a, r, f, p);
        case Spawn(child, next) => SpawnIsMove(code, w, a, r, f, p);
      }
  }

  // A root whose frames keep their points keeps its meaning.
  lemma UntouchedFollows(code: Code, w: World, w': World, q: nat)
    requires q < |w.past| && q < |w'.past| && RootFollows(code, w, q) && Shape(w'.s.frames, q, w.past[q].chain)
    requires w'.past[q] == w.past[q].(handled := w'.past[q].handled)
    requires forall a | a in w.past[q].chain :: SamePoint(w.s.frames[a].point, w'.s.frames[a].point)
    ensures RootFollows(code, w', q)
  {
    SameConfig(w.s.frames, w'.s.frames, q, w.past[q].chain);
  }

  lemma WorkFollows(code: Code, w: World, a: Addr)
    requires MeaningInv(code, w) && Enabled(DoWork(a), w)
    ensures MeaningInv(code, Apply(code, DoWork(a), w))
  {
    WorkKeeps(code, w, a);
    var w', r, f := Apply(code, DoWork(a), w), w.s.control.root, w.s.control.frame;
    if !w'.s.control.Terminated? {
      WorkIsMove(code, w, a, r, f, w.past[r]);
      var cfg := ConfigOf(w.s.frames, r, w.past[r].chain);
      assert RootFollows(code, w, r);
      FollowsNext(code, w.past[r], cfg, Reading(w.s), w'.past[r]);
      forall q | 0 <= q < |w'.past| && q != r ensures RootFollows(code, w', q) {
        OtherFollows(code, w, a, q);
      }
    }
  }

  lemma OtherFollows(code: Code, w: World, a: Addr, q: nat)
    requires MeaningInv(code, w) && Enabled(DoWork(a), w) && q != w.s.control.root
    requires q < |Apply(code, DoWork(a), w).past| && Inv(Apply(code, DoWork(a), w))
    requires !Apply(code, DoWork(a), w).s.control.Terminated?
    ensures RootFollows(code, Apply(code, DoWork(a), w), q)
  {
    var w', r, f := Apply(code, DoWork(a), w), w.s.control.root, w.s.control.frame;
    LeafIsRunning(w, r, f, w.past[r]);
    assert RootOk(w', q);
    if q < |w.past| {
      assert RootOk(w, q) && RootFollows(code, w, q);
      WorkLeavesOthers(code, w, a, q);
      UntouchedFollows(code, w, w', q);
    } else {
      var child := code(w.s.frames[f].point.at).child;
      NewRootFollows(code, child, a);
      assert ConfigOf(w'.s.frames, q, [a]) == Config(AtCode(child), []);
    }
  }

  // A chain is out of reach of the others, whatever they do.
  lemma WorkLeavesOthers(code: Code, w: World, a: Addr, q: nat)
    requires Inv(w) && Enabled(DoWork(a), w) && q != w.s.control.root && q < |w.past|
    requires !Apply(code, DoWork(a), w).s.control.Terminated?
    ensures var w' := Apply(code, DoWork(a), w);
      w'.past[q] == w.past[q] &&
      forall b | b in w.past[q].chain :: b in w.s.frames && b in w'.s.frames && w'.s.frames[b] == w.s.frames[b]
  {
    var r, f, w' := w.s.control.root, w.s.control.frame, Apply(code, DoWork(a), w);
    var p := w.past[r];
    LeafIsRunning(w, r, f, p);
    assert RootOk(w, q);
    assert forall b | b in w.past[q].chain :: b in w.s.frames && w.s.frames[b].chainTask == q;
    match w.s.frames[f].point
    case InIo(_, _) =>
    case Body(c) =>
      match code(c) {
        case Return(v) => EndLeavesOthers(w, r, f, p, Returned(v), q);
        case Throw(e) => EndLeavesOthers(w, r, f, p, Raised(e), q);
        case _ =>
      }
  }

  lemma EndLeavesOthers(w: World, r: nat, f: Addr, p: Past, o: Outcome, q: nat)
    requires AtWork(w, r, f, p) && f in w.s.frames && !FinalSuspend(w.s, r, f, o).control.Terminated?
    requires r < |w.past| == |w.s.tasks| && w.past[r] == p && RootOk(w, r) && q < |w.past| && q != r && RootOk(w, q)
    ensures var s' := FinalSuspend(w.s, r, f, o);
      forall b | b in w.past[q].chain :: b in s'.frames && s'.frames[b] == w.s.frames[b]
  {
    LeafIsRunning(w, r, f, p);
    if |p.chain| > 1 { JoinEffect(w, r, f, p, o); }
  }

  // Transitions that run no coroutine leave every chain standing where it stood.
  lemma OthersFollow(code: Code, w: World, w': World)
    requires MeaningInv(code, w) && Inv(w') && !w.s.control.Terminated? && !w'.s.control.Terminated?
    requires |w.past| <= |w'.past|
    requires forall q | 0 <= q < |w.past| :: w'.past[q] == w.past[q].(handled := w'.past[q].handled)
    requires forall a | a in w.s.frames :: a in w'.s.frames && SamePoint(w.s.frames[a].point, w'.s.frames[a].point)
    ensures forall q | 0 <= q < |w.past| :: RootFollows(code, w', q)
  {
    forall q | 0 <= q < |w.past| ensures RootFollows(code, w', q) {
      assert RootOk(w', q) && RootOk(w, q) && RootFollows(code, w, q);
      UntouchedFollows(code, w, w', q);
    }
  }

  lemma EmplaceFollows(code: Code, w: World, a: Addr, c: Local)
    requires MeaningInv(code, w) && Enabled(DoEmplace(a, c), w) && Inv(Apply(code, DoEmplace(a, c), w))
    ensures MeaningInv(code, Apply(code, DoEmplace(a, c), w))
  {
    var w' := Apply(code, DoEmplace(a, c), w);
    OthersFollow(code, w, w');
    assert RootOk(w', |w.past|);
    EmplacedFollows(code, w', |w.past|, a, c);
  }

  // A root that has just been made.
  lemma EmplacedFollows(code: Code, w: World, r: nat, a: Addr, c: Local)
    requires r < |w.past| == |w.s.tasks| && w.past[r] == NewPast(c, a) && RootOk(w, r)
    requires a in w.s.frames && w.s.frames[a].point == Body(c)
    ensures RootFollows(code, w, r)
  {
    NewRootFollows(code, c, a);
    assert ConfigOf(w.s.frames, r, [a]) == Config(AtCode(c), []);
  }

  lemma StepFollows(code: Code, l: Label, w: World)
    requires MeaningInv(code, w) && Enabled(l, w)
    ensures MeaningInv(code, Apply(code, l, w))
  {
    var w' := Apply(code, l, w);
    StepKeeps(code, l, w);
    match l
    case DoWork(a) => WorkFollows(code, w, a);
    case DoHandle => HandleEffect(w); OthersFollow(code, w, w');
    case DoEmplace(a, c) => EmplaceFollows(code, w, a, c);
    case DoResume(r) => OthersFollow(code, w, w');
    case DoComplete(a, x) => OthersFollow(code, w, w');
  }

  lemma ReachableMeaning(code: Code, w: World)
    requires Reachable(code, w)
    ensures MeaningInv(code, w)
  {
    var ws :| IsRun(code, ws) && ws[|ws| - 1] == w;
    RunFollows(code, ws);
  }

  lemma {:induction false} RunFollows(code: Code, ws: seq<World>)
    requires IsRun(code, ws)
    ensures MeaningInv(code, ws[|ws| - 1])
  {
    if |ws| > 1 {
      RunFollows(code, ws[..|ws| - 1]);
      var l :| Enabled(l, ws[|ws| - 2]) && ws[|ws| - 1] == Apply(code, l, ws[|ws| - 2]);
      StepFollows(code, l, ws[|ws| - 2]);
    }
  }

  // What a root that is not running has to show for itself.
  ghost predicate ShowsItsMeaning(code: Code, s: State, t: ScheduledTask, p: Past) {
    if !t.valid then
      && t.task in s.frames && s.frames[t.task].point.Final? && s.frames[t.task].point.outcome.Returned?
      && p.handled == p.got
      && Direct(code, p.start, p.handled, p.steps) == Run(p.log, Done(s.frames[t.task].point.outcome), [])
    else if t.pending then
      && p.handled == p.got
      && Direct(code, p.start, p.handled, p.steps) == Run(p.log, Blocked, [])
    else
      t.awaiting in s.frames &&
      match s.frames[t.awaiting].point
      case Body(c) => p == NewPast(c, t.task)
      case InIo(token, _) =>
        && p.handled == p.got + [token.with]
        && Direct(code, p.start, p.got, p.steps) == Run(p.log, Blocked, [])
      case _ => false
  }

  /** Meaning preservation. However roots and completions were interleaved, a root that is not
      running has shown exactly what its body, read as sequential code, does with the completions
      handled for it: it has returned the same value, or it waits where that code waits, or it
      has been woken by one more completion than it has read, or it has not begun. */
  lemma MeaningPreserved(code: Code, w: World, r: nat)
    requires Reachable(code, w) && r < |w.s.tasks|
    requires w.s.control.Idle? || (w.s.control.Running? && w.s.control.root != r)
    ensures |w.past| == |w.s.tasks| && ShowsItsMeaning(code, w.s, w.s.tasks[r], w.past[r])
  {
    ReachableMeaning(code, w);
    assert RootOk(w, r) && RootFollows(code, w, r);
    if !w.s.frames[w.past[r].chain[0]].point.Body? {
      SettledMeaning(code, w.past[r], ConfigOf(w.s.frames, r, w.past[r].chain));
    }
  }

  lemma SettledMeaning(code: Code, p: Past, cfg: Config)
    requires Follows(code, p, cfg) && !cfg.now.AtCode? && (cfg.now.AtEnd? ==> cfg.ks == [])
    ensures Direct(code, p.start, p.got, p.steps)
         == Run(p.log, if cfg.now.AtIo? then Blocked else Done(cfg.now.o), [])
  {
    var rest := Eval(code, cfg, [], 0);
    assert rest.end != OutOfFuel;
    assert p.got + [] == p.got && 0 + p.steps == p.steps && p.log + [] == p.log;
  }
}
