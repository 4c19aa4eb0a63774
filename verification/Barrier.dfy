/** The response barrier (internal/acp/fence.go, server.go runResponseBarrier,
    host.go responseBarrier, and the forwarder loops of turn.go, watch.go and
    stack.go).

    Forwarders drain buffered subscriptions into one output stream.  Before a
    response is written the barrier asks every fence of the session, manager by
    manager, and a forwarder answers once it has forwarded what was buffered. */
module Barrier {
  import opened Common

  const MANAGERS := 3       // turn, work and watch, fenced in this order
  const CAPACITY := 16      // a subscription's default buffer

  /** A forwarder's life: its select loop, its final drain, the work after the drain
      found nothing more, and its fence closed and removed. */
  datatype Phase = Looping | Draining | Finishing | Gone

  /** serving is the barrier being answered and how many events are still to be
      forwarded for it; terminal subscriptions, the turn's, block their publishers
      instead of dropping their oldest event.  A turn whose context ended is cancelled:
      it may answer a barrier early (cut), but still drains; any other forwarder quits. */
  datatype Forwarder = Forwarder(manager: nat, terminal: bool, phase: Phase, buffer: seq<nat>,
                                 serving: Option<(nat, nat)>, cancelled: bool, quit: bool,
                                 dropped: set<nat>, cut: set<nat>)

  datatype Out = Update(f: nat, event: nat) | Response(b: nat)

  /** A barrier: about to snapshot a manager's fences, about to ask fence i of the
      snapshot, waiting for its answer, or done.  expired marks one whose bound
      (or request) ended first. */
  datatype Stage = Snapshotting(m: nat) | Asking(m: nat, fences: seq<nat>, i: nat) | Waiting(m: nat, fences: seq<nat>, i: nat)
                 | Complete | Responded
  datatype Bar = Bar(stage: Stage, expired: bool)

  datatype State = State(fwds: seq<Forwarder>, fences: map<nat, seq<nat>>, bars: map<nat, Bar>, out: seq<Out>)

  const Start := State([], map[0 := [], 1 := [], 2 := []], map[], [])

  datatype Label =
    | Attach(m: nat, terminal: bool)
    | Publish(f: nat, e: nat)
    | Forward(f: nat)
    | Answer(f: nat)
    | EndLoop(f: nat)
    | DrainedAll(f: nat)
    | Leave(f: nat)
    | CancelForwarder(f: nat)
    | CancelTurn(f: nat)      // its context ends: a fence is answered early, the drain still runs
    | Begin(b: nat)
    | Snapshot(b: nat)
    | HandOver(b: nat)
    | SeeGone(b: nat)
    | NextManager(b: nat)
    | Expire(b: nat)
    | Respond(b: nat)

  predicate In(s: State, f: nat, p: Phase) { f < |s.fwds| && s.fwds[f].phase == p }

  predicate AtFence(s: State, b: nat, waiting: bool) {
    b in s.bars && (if waiting then s.bars[b].stage.Waiting? else s.bars[b].stage.Asking?)
    && s.bars[b].stage.i < |s.bars[b].stage.fences| && s.bars[b].stage.fences[s.bars[b].stage.i] < |s.fwds|
  }

  function Target(s: State, b: nat): nat
    requires AtFence(s, b, true) || AtFence(s, b, false)
  {
    s.bars[b].stage.fences[s.bars[b].stage.i]
  }

  predicate Enabled(s: State, l: Label) {
    match l
    case Attach(m, _) => m < MANAGERS && m in s.fences
    case Publish(f, _) => f < |s.fwds| && (s.fwds[f].terminal ==> |s.fwds[f].buffer| < CAPACITY)
    case Forward(f) => f < |s.fwds| && s.fwds[f].buffer != [] && (s.fwds[f].phase.Draining? || (s.fwds[f].phase.Looping?
                         && (s.fwds[f].serving.Some? ==> s.fwds[f].serving.value.1 > 0)))
    case Answer(f) => In(s, f, Looping) && s.fwds[f].serving.Some? && (s.fwds[f].serving.value.1 == 0 || s.fwds[f].cancelled)
    case EndLoop(f) => In(s, f, Looping) && s.fwds[f].serving.None?
    case DrainedAll(f) => In(s, f, Draining) && s.fwds[f].buffer == []
    case Leave(f) => In(s, f, Finishing)
    case CancelForwarder(f) => f < |s.fwds| && !s.fwds[f].terminal && !s.fwds[f].phase.Gone?
    case CancelTurn(f) => f < |s.fwds| && s.fwds[f].terminal
    case Begin(b) => b !in s.bars
    case Snapshot(b) => b in s.bars && s.bars[b].stage.Snapshotting? && s.bars[b].stage.m in s.fences
    case HandOver(b) => AtFence(s, b, false) && In(s, Target(s, b), Looping) && s.fwds[Target(s, b)].serving.None?
    case SeeGone(b) => (AtFence(s, b, false) || AtFence(s, b, true)) && In(s, Target(s, b), Gone)
    case NextManager(b) => b in s.bars && s.bars[b].stage.Asking? && s.bars[b].stage.i == |s.bars[b].stage.fences|
    case Expire(b) => b in s.bars && !s.bars[b].stage.Responded?
    case Respond(b) => b in s.bars && s.bars[b].stage.Complete?
  }

  function SetFwd(s: State, f: nat, x: Forwarder): State
    requires f < |s.fwds|
  {
    s.(fwds := s.fwds[f := x])
  }

  function SetStage(s: State, b: nat, stage: Stage): State
    requires b in s.bars
  {
    s.(bars := s.bars[b := s.bars[b].(stage := stage)])
  }

  function Without(fences: seq<nat>, f: nat): seq<nat> {
    if fences == [] then []
    else if fences[0] == f then fences[1..]
    else [fences[0]] + Without(fences[1..], f)
  }

  function Removed(s: State, f: nat): map<nat, seq<nat>>
    requires f < |s.fwds|
  {
    var m := s.fwds[f].manager;
    if m in s.fences then s.fences[m := Without(s.fences[m], f)] else s.fences
  }

  function Published(x: Forwarder, e: nat): Forwarder {
    if |x.buffer| < CAPACITY || x.terminal then x.(buffer := x.buffer + [e])
    else x.(buffer := x.buffer[1..] + [e], dropped := x.dropped + {x.buffer[0]})
  }

  function Forwarded(x: Forwarder): Forwarder
    requires x.buffer != []
  {
    x.(buffer := x.buffer[1..],
       serving := if x.serving.Some? && x.serving.value.1 > 0 then Some((x.serving.value.0, x.serving.value.1 - 1)) else x.serving)
  }

  function Do(s: State, l: Label): State
    requires Enabled(s, l)
  {
    match l
    case Attach(m, terminal) =>
      s.(fwds := s.fwds + [Forwarder(m, terminal, Looping, [], None, false, false, {}, {})],
         fences := s.fences[m := s.fences[m] + [|s.fwds|]])
    case Publish(f, e) => SetFwd(s, f, Published(s.fwds[f], e))
    case Forward(f) => SetFwd(s, f, Forwarded(s.fwds[f])).(out := s.out + [Update(f, s.fwds[f].buffer[0])])
    case Answer(f) =>
      var (b, left) := s.fwds[f].serving.value;
      var s' := SetFwd(s, f, s.fwds[f].(serving := None, cut := if left > 0 then s.fwds[f].cut + {b} else s.fwds[f].cut));
      if AtFence(s, b, true) && Target(s, b) == f
      then SetStage(s', b, Asking(s.bars[b].stage.m, s.bars[b].stage.fences, s.bars[b].stage.i + 1)) else s'
    case EndLoop(f) => SetFwd(s, f, s.fwds[f].(phase := Draining))
    case DrainedAll(f) => SetFwd(s, f, s.fwds[f].(phase := Finishing))
    case Leave(f) => SetFwd(s, f, s.fwds[f].(phase := Gone)).(fences := Removed(s, f))
    case CancelForwarder(f) => SetFwd(s, f, s.fwds[f].(phase := Gone, quit := true, serving := None)).(fences := Removed(s, f))
    case CancelTurn(f) => SetFwd(s, f, s.fwds[f].(cancelled := true))
    case Begin(b) => s.(bars := s.bars[b := Bar(Snapshotting(0), false)])
    case Snapshot(b) => var m := s.bars[b].stage.m; SetStage(s, b, Asking(m, s.fences[m], 0))
    case HandOver(b) =>
      var x, f := s.bars[b].stage, Target(s, b);
      SetStage(SetFwd(s, f, s.fwds[f].(serving := Some((b, |s.fwds[f].buffer|)))), b, Waiting(x.m, x.fences, x.i))
    case SeeGone(b) => var x := s.bars[b].stage; SetStage(s, b, Asking(x.m, x.fences, x.i + 1))
    case NextManager(b) =>
      var m := s.bars[b].stage.m;
      SetStage(s, b, if m + 1 < MANAGERS then Snapshotting(m + 1) else Complete)
    case Expire(b) => s.(bars := s.bars[b := Bar(Complete, true)])
    case Respond(b) => SetStage(s, b, Responded).(out := s.out + [Response(b)])
  }

  ghost predicate Reaches(s: State, ls: seq<Label>, t: State)
    decreases |ls|
  {
    if ls == [] then s == t else Enabled(s, ls[0]) && Reaches(Do(s, ls[0]), ls[1..], t)
  }

  // ---------------------------------------------------------- read your writes

  /** Barrier b has yet to ask forwarder f, and will. */
  predicate ToAsk(s: State, b: nat, f: nat) {
    && b in s.bars && f < |s.fwds|
    && var x, m := s.bars[b].stage, s.fwds[f].manager;
       match x
       case Snapshotting(k) => k <= m < MANAGERS && m in s.fences && f in s.fences[m]
       case Asking(k, fences, i) => if k == m then i <= |fences| && f in fences[i..] else k < m < MANAGERS && m in s.fences && f in s.fences[m]
       case Waiting(k, fences, i) => if k == m then i + 1 <= |fences| && f in fences[i + 1..] else k < m < MANAGERS && m in s.fences && f in s.fences[m]
       case _ => false
  }

  /** Barrier b waits for forwarder f, which is answering it and has event e among
      the events it still forwards for it. */
  predicate BeingServed(s: State, b: nat, f: nat, e: nat) {
    && AtFence(s, b, true) && Target(s, b) == f && In(s, f, Looping)
    && s.fwds[f].serving.Some? && s.fwds[f].serving.value.0 == b
    && s.fwds[f].serving.value.1 <= |s.fwds[f].buffer| && e in s.fwds[f].buffer[..s.fwds[f].serving.value.1]
  }

  /** Event e waits in forwarder f's buffer, and f will still drain it. */
  predicate Buffered(s: State, f: nat, e: nat) {
    f < |s.fwds| && e in s.fwds[f].buffer && (s.fwds[f].phase.Looping? || s.fwds[f].phase.Draining?)
  }

  predicate Excused(s: State, b: nat, f: nat, e: nat) {
    f < |s.fwds| && (s.fwds[f].quit || b in s.fwds[f].cut || e in s.fwds[f].dropped || (b in s.bars && s.bars[b].expired))
  }

  /** What the barrier owes event e of forwarder f at every moment before it ends. */
  ghost predicate Owes(s: State, b: nat, f: nat, e: nat) {
    || Update(f, e) in s.out
    || Excused(s, b, f, e)
    || (Buffered(s, f, e) && (ToAsk(s, b, f) || BeingServed(s, b, f, e)))
  }

  ghost predicate Tidy(s: State) {
    && (forall f: nat :: f < |s.fwds| && s.fwds[f].serving.Some? ==> s.fwds[f].serving.value.1 <= |s.fwds[f].buffer|)
    && (forall m: nat :: m < MANAGERS ==> m in s.fences)
  }

  lemma TidyKeeps(s: State, l: Label)
    requires Tidy(s) && Enabled(s, l)
    ensures Tidy(Do(s, l))
  {
  }

  lemma StaysListed(fences: seq<nat>, f: nat, g: nat)
    requires f != g && g in fences
    ensures g in Without(fences, f)
  {
    if fences[0] != f && fences[0] != g {
      StaysListed(fences[1..], f, g);
    }
  }

  lemma PublishKeeps(x: Forwarder, e': nat, e: nat)
    requires e in x.buffer
    ensures e in Published(x, e').buffer || e in Published(x, e').dropped
  {
    assert x.buffer == [x.buffer[0]] + x.buffer[1..];
  }

  /** ToAsk reads only the barrier, the forwarder's manager and the fence lists. */
  lemma ToAskFrame(s: State, t: State, b: nat, f: nat)
    requires ToAsk(s, b, f) && b in t.bars && t.bars[b] == s.bars[b]
    requires f < |t.fwds| && t.fwds[f].manager == s.fwds[f].manager
    requires var m := s.fwds[f].manager; m in s.fences && f in s.fences[m] ==> m in t.fences && f in t.fences[m]
    ensures ToAsk(t, b, f)
  {
  }

  lemma AskedAfterOwnStep(s: State, l: Label, b: nat, f: nat, e: nat)
    requires Tidy(s) && Enabled(s, l) && Buffered(s, f, e) && ToAsk(s, b, f)
    requires l in {EndLoop(f), DrainedAll(f), Leave(f), CancelForwarder(f), CancelTurn(f)} || (l.Publish? && l.f == f) || (l.Forward? && l.f == f)
    ensures Owes(Do(s, l), b, f, e)
  {
    var t := Do(s, l);
    match l {
      case Publish(_, e') => PublishKeeps(s.fwds[f], e', e); ToAskFrame(s, t, b, f);
      case Forward(_) =>
        assert s.fwds[f].buffer == [s.fwds[f].buffer[0]] + s.fwds[f].buffer[1..];
        ToAskFrame(s, t, b, f);
        assert Update(f, s.fwds[f].buffer[0]) in t.out;
      case EndLoop(_) => ToAskFrame(s, t, b, f);
      case CancelTurn(_) => ToAskFrame(s, t, b, f);
      case _ =>
    }
  }

  lemma AskedAfterOtherStep(s: State, l: Label, b: nat, f: nat, e: nat)
    requires Tidy(s) && Enabled(s, l) && Buffered(s, f, e) && ToAsk(s, b, f)
    requires l.Attach? || (l.Begin? && l.b != b)
      || ((l.Publish? || l.Forward? || l.EndLoop? || l.DrainedAll? || l.Leave? || l.CancelForwarder? || l.CancelTurn?) && l.f != f)
    ensures Owes(Do(s, l), b, f, e)
  {
    var t, m := Do(s, l), s.fwds[f].manager;
    if (l.Leave? || l.CancelForwarder?) && m in s.fences && f in s.fences[m] {
      StaysListed(s.fences[m], l.f, f);
    }
    ToAskFrame(s, t, b, f);
  }

  lemma AskedAfterAnswer(s: State, g: nat, b: nat, f: nat, e: nat)
    requires Tidy(s) && Enabled(s, Answer(g)) && Buffered(s, f, e) && ToAsk(s, b, f)
    ensures Owes(Do(s, Answer(g)), b, f, e)
  {
    var t, x := Do(s, Answer(g)), s.bars[b].stage;
    assert Buffered(t, f, e);
    if t.bars[b] == s.bars[b] {
      ToAskFrame(s, t, b, f);
    } else {
      assert t.bars[b].stage == Asking(x.m, x.fences, x.i + 1);
      assert ToAsk(t, b, f);
    }
  }

  lemma AskedAfterElsewhere(s: State, l: Label, b: nat, f: nat, e: nat)
    requires Tidy(s) && Enabled(s, l) && Buffered(s, f, e) && ToAsk(s, b, f)
    requires (l.Snapshot? || l.HandOver? || l.SeeGone? || l.NextManager? || l.Expire? || l.Respond?) && l.b != b
    ensures Owes(Do(s, l), b, f, e)
  {
    ToAskFrame(s, Do(s, l), b, f);
  }

  lemma AskedAfterSnapshot(s: State, b: nat, f: nat)
    requires Tidy(s) && Enabled(s, Snapshot(b)) && ToAsk(s, b, f)
    ensures ToAsk(Do(s, Snapshot(b)), b, f)
  {
    assert s.fences[s.bars[b].stage.m][0..] == s.fences[s.bars[b].stage.m];
  }

  /** A fence of another forwarder, or one that is gone, is passed; a buffered event's
      own forwarder is not gone. */
  lemma AskedAfterPass(s: State, b: nat, f: nat, e: nat)
    requires Tidy(s) && Enabled(s, SeeGone(b)) && Buffered(s, f, e) && ToAsk(s, b, f)
    ensures ToAsk(Do(s, SeeGone(b)), b, f)
  {
    var x := s.bars[b].stage;
    if x.Asking? { assert x.fences[x.i..] == [x.fences[x.i]] + x.fences[x.i + 1..]; }
  }

  lemma AskedAfterNext(s: State, b: nat, f: nat)
    requires Tidy(s) && Enabled(s, NextManager(b)) && ToAsk(s, b, f)
    ensures ToAsk(Do(s, NextManager(b)), b, f)
  {
    var x := s.bars[b].stage;
    assert x.fences[x.i..] == [];
  }

  lemma AskedAfterBarrierStep(s: State, l: Label, b: nat, f: nat, e: nat)
    requires Tidy(s) && Enabled(s, l) && Buffered(s, f, e) && ToAsk(s, b, f)
    requires (l.Snapshot? || l.SeeGone? || l.NextManager? || l.Expire?) && l.b == b
    ensures Owes(Do(s, l), b, f, e)
  {
    match l {
      case Snapshot(_) => AskedAfterSnapshot(s, b, f);
      case SeeGone(_) => AskedAfterPass(s, b, f, e);
      case NextManager(_) => AskedAfterNext(s, b, f);
      case _ =>
    }
  }

  lemma AskedAfterHandOver(s: State, b: nat, f: nat, e: nat)
    requires Tidy(s) && Enabled(s, HandOver(b)) && Buffered(s, f, e) && ToAsk(s, b, f)
    ensures Owes(Do(s, HandOver(b)), b, f, e)
  {
    var x, t := s.bars[b].stage, Do(s, HandOver(b));
    assert x.fences[x.i..] == [x.fences[x.i]] + x.fences[x.i + 1..];
    assert Buffered(t, f, e);
    if Target(s, b) == f {
      assert s.fwds[f].buffer[..|s.fwds[f].buffer|] == s.fwds[f].buffer;
      assert BeingServed(t, b, f, e);
    } else {
      assert t.fwds[f] == s.fwds[f];
      assert ToAsk(t, b, f);
    }
  }

  lemma StaysToAsk(s: State, l: Label, b: nat, f: nat, e: nat)
    requires Tidy(s) && Enabled(s, l) && Buffered(s, f, e) && ToAsk(s, b, f)
    ensures Owes(Do(s, l), b, f, e)
  {
    match l {
      case Attach(_, _) => AskedAfterOtherStep(s, l, b, f, e);
      case Begin(_) => AskedAfterOtherStep(s, l, b, f, e);
      case Answer(g) => AskedAfterAnswer(s, g, b, f, e);
      case HandOver(c) => if c == b { AskedAfterHandOver(s, b, f, e); } else { AskedAfterElsewhere(s, l, b, f, e); }
      case Snapshot(c) => if c == b { AskedAfterBarrierStep(s, l, b, f, e); } else { AskedAfterElsewhere(s, l, b, f, e); }
      case SeeGone(c) => if c == b { AskedAfterBarrierStep(s, l, b, f, e); } else { AskedAfterElsewhere(s, l, b, f, e); }
      case NextManager(c) => if c == b { AskedAfterBarrierStep(s, l, b, f, e); } else { AskedAfterElsewhere(s, l, b, f, e); }
      case Expire(c) => if c == b { AskedAfterBarrierStep(s, l, b, f, e); } else { AskedAfterElsewhere(s, l, b, f, e); }
      case Respond(c) => AskedAfterElsewhere(s, l, b, f, e);
      case _ => if l.f == f { AskedAfterOwnStep(s, l, b, f, e); } else { AskedAfterOtherStep(s, l, b, f, e); }
    }
  }

  /** A publish leaves the events still to be forwarded among the first n. */
  lemma ServedAfterPublish(x: Forwarder, e': nat, e: nat, n: nat)
    requires n <= |x.buffer| && e in x.buffer[..n]
    ensures n <= |Published(x, e').buffer|
    ensures e in Published(x, e').dropped || e in Published(x, e').buffer[..n]
  {
    var y := Published(x, e');
    if |x.buffer| < CAPACITY || x.terminal {
      assert y.buffer[..n] == x.buffer[..n];
    } else {
      assert x.buffer[..n] == [x.buffer[0]] + x.buffer[1..n];
      assert y.buffer[..n - 1] == x.buffer[1..n];
      assert y.buffer[..n] == y.buffer[..n - 1] + [y.buffer[n - 1]];
    }
  }

  lemma ServedAfterForward(x: Forwarder, e: nat)
    requires x.serving.Some? && 0 < x.serving.value.1 <= |x.buffer| && e in x.buffer[..x.serving.value.1]
    ensures x.buffer[0] == e || e in Forwarded(x).buffer[..x.serving.value.1 - 1]
  {
    var n := x.serving.value.1;
    assert x.buffer[..n] == [x.buffer[0]] + x.buffer[1..n];
    assert x.buffer[1..][..n - 1] == x.buffer[1..n];
  }

  lemma ServedFrame(s: State, t: State, b: nat, f: nat, e: nat)
    requires Buffered(s, f, e) && BeingServed(s, b, f, e) && |t.fwds| >= |s.fwds| && t.fwds[f] == s.fwds[f]
    requires b in t.bars && t.bars[b] == s.bars[b]
    ensures Owes(t, b, f, e)
  {
  }

  lemma ServedAfterOwnStep(s: State, l: Label, b: nat, f: nat, e: nat)
    requires Tidy(s) && Enabled(s, l) && Buffered(s, f, e) && BeingServed(s, b, f, e)
    requires l in {CancelForwarder(f), CancelTurn(f), Answer(f)} || (l.Publish? && l.f == f) || (l.Forward? && l.f == f)
    ensures Owes(Do(s, l), b, f, e)
  {
    var t, n := Do(s, l), s.fwds[f].serving.value.1;
    match l {
      case Publish(_, e') =>
        ServedAfterPublish(s.fwds[f], e', e, n);
        assert e in t.fwds[f].dropped || BeingServed(t, b, f, e);
      case Forward(_) =>
        ServedAfterForward(s.fwds[f], e);
        assert Update(f, s.fwds[f].buffer[0]) in t.out;
        assert s.fwds[f].buffer[0] == e || BeingServed(t, b, f, e);
      case _ =>
    }
  }

  lemma StaysServed(s: State, l: Label, b: nat, f: nat, e: nat)
    requires Tidy(s) && Enabled(s, l) && Buffered(s, f, e) && BeingServed(s, b, f, e)
    ensures Owes(Do(s, l), b, f, e)
  {
    if l in {CancelForwarder(f), CancelTurn(f), Answer(f)} || (l.Publish? && l.f == f) || (l.Forward? && l.f == f) {
      ServedAfterOwnStep(s, l, b, f, e);
    } else if l != Expire(b) {
      ServedFrame(s, Do(s, l), b, f, e);
    }
  }

  lemma StepKeeps(s: State, l: Label, b: nat, f: nat, e: nat)
    requires Tidy(s) && Enabled(s, l) && Owes(s, b, f, e)
    ensures Owes(Do(s, l), b, f, e)
  {
    if Update(f, e) in s.out {
    } else if Excused(s, b, f, e) {
    } else if ToAsk(s, b, f) {
      StaysToAsk(s, l, b, f, e);
    } else {
      StaysServed(s, l, b, f, e);
    }
  }

  lemma {:induction false} RunKeeps(s: State, ls: seq<Label>, t: State, b: nat, f: nat, e: nat)
    requires Tidy(s) && Owes(s, b, f, e) && Reaches(s, ls, t)
    ensures Owes(t, b, f, e)
    decreases |ls|
  {
    if ls != [] {
      StepKeeps(s, ls[0], b, f, e);
      TidyKeeps(s, ls[0]);
      RunKeeps(Do(s, ls[0]), ls[1..], t, b, f, e);
    }
  }

  lemma {:induction false} RunTidy(s: State, ls: seq<Label>, t: State)
    requires Tidy(s) && Reaches(s, ls, t)
    ensures Tidy(t)
    decreases |ls|
  {
    if ls != [] {
      TidyKeeps(s, ls[0]);
      RunTidy(Do(s, ls[0]), ls[1..], t);
    }
  }

  /** Read your writes: take any moment s of any run at which barrier b has yet to
      ask forwarder f and event e is buffered for a loop or a final drain.  When b
      writes its response, e's update is already in the output stream, unless the
      bound expired, f quit, a cancelled turn answered b early, or e was dropped from a
      best-effort subscription that overflowed. */
  lemma ReadYourWrites(before: seq<Label>, s: State, ls: seq<Label>, t: State, b: nat, f: nat, e: nat)
    requires Reaches(Start, before, s) && Reaches(s, ls, t)
    requires ToAsk(s, b, f) && Buffered(s, f, e)
    requires Enabled(t, Respond(b)) && !t.bars[b].expired
    requires f < |t.fwds| ==> !t.fwds[f].quit && b !in t.fwds[f].cut && e !in t.fwds[f].dropped
    ensures Update(f, e) in t.out && Do(t, Respond(b)).out == t.out + [Response(b)]
  {
    RunTidy(Start, before, s);
    RunKeeps(s, ls, t, b, f, e);
  }

  ghost predicate TerminalClean(s: State) {
    forall f: nat :: f < |s.fwds| && s.fwds[f].terminal ==> s.fwds[f].dropped == {} && !s.fwds[f].quit
  }

  lemma TerminalStep(s: State, l: Label)
    requires TerminalClean(s) && Enabled(s, l)
    ensures TerminalClean(Do(s, l)) && |s.fwds| <= |Do(s, l).fwds|
    ensures forall f: nat :: f < |s.fwds| ==> Do(s, l).fwds[f].terminal == s.fwds[f].terminal
  {
  }

  /** A turn's forwarder drops nothing and never leaves without its drain. */
  lemma {:induction false} TerminalNeverDrops(s: State, ls: seq<Label>, t: State)
    requires TerminalClean(s) && Reaches(s, ls, t)
    ensures TerminalClean(t) && |s.fwds| <= |t.fwds|
    ensures forall f: nat :: f < |s.fwds| ==> t.fwds[f].terminal == s.fwds[f].terminal
    decreases |ls|
  {
    if ls != [] {
      TerminalStep(s, ls[0]);
      TerminalNeverDrops(Do(s, ls[0]), ls[1..], t);
    }
  }

  /** So for a turn, cancelled or not, only an expired bound or a fence it answered early
      can cost a barrier an update; one that waits for its final drain misses none. */
  lemma TurnReadYourWrites(before: seq<Label>, s: State, ls: seq<Label>, t: State, b: nat, f: nat, e: nat)
    requires Reaches(Start, before, s) && Reaches(s, ls, t)
    requires ToAsk(s, b, f) && Buffered(s, f, e) && s.fwds[f].terminal
    requires Enabled(t, Respond(b)) && !t.bars[b].expired && (f < |t.fwds| ==> b !in t.fwds[f].cut)
    ensures Update(f, e) in t.out && Do(t, Respond(b)).out == t.out + [Response(b)]
  {
    TerminalNeverDrops(Start, before, s);
    TerminalNeverDrops(s, ls, t);
    ReadYourWrites(before, s, ls, t, b, f, e);
  }

  // ------------------------------------------------------------ order of sending

  function SentBy(o: Out, f: nat): seq<nat> { if o.Update? && o.f == f then [o.event] else [] }

  /** The events an output sends for forwarder f, in order. */
  function Updates(out: seq<Out>, f: nat): seq<nat> {
    if out == [] then [] else SentBy(out[0], f) + Updates(out[1..], f)
  }

  function GivenBy(l: Label, f: nat): seq<nat> { if l.Publish? && l.f == f then [l.e] else [] }

  /** The events a run publishes to f, in order. */
  function PublishedTo(ls: seq<Label>, f: nat): seq<nat> {
    if ls == [] then [] else GivenBy(ls[0], f) + PublishedTo(ls[1..], f)
  }

  predicate FindsFull(s: State, l: Label, f: nat) {
    l.Publish? && l.f == f && f < |s.fwds| && !s.fwds[f].terminal && |s.fwds[f].buffer| >= CAPACITY
  }

  /** How many publishes of a run find f's best-effort buffer full. */
  ghost function Overflows(s: State, ls: seq<Label>, f: nat): nat
    decreases |ls|
  {
    if ls == [] || !Enabled(s, ls[0]) then 0
    else (if FindsFull(s, ls[0], f) then 1 else 0) + Overflows(Do(s, ls[0]), ls[1..], f)
  }

  /** whole is a and b merged, each in its own order. */
  ghost predicate Merged(a: seq<nat>, b: seq<nat>, whole: seq<nat>) {
    if whole == [] then a == [] && b == []
    else (a != [] && a[0] == whole[0] && Merged(a[1..], b, whole[1..])) || (b != [] && b[0] == whole[0] && Merged(a, b[1..], whole[1..]))
  }

  lemma Associate(a: seq<nat>, b: seq<nat>, c: seq<nat>)
    ensures a + (b + c) == (a + b) + c
  {
  }

  lemma {:induction false} UpdatesJoin(a: seq<Out>, b: seq<Out>, f: nat)
    ensures Updates(a + b, f) == Updates(a, f) + Updates(b, f)
  {
    if a == [] {
      assert a + b == b;
    } else {
      UpdatesJoin(a[1..], b, f);
      assert (a + b)[1..] == a[1..] + b;
      Associate(SentBy(a[0], f), Updates(a[1..], f), Updates(b, f));
    }
  }

  /** whole is what was sent and lost, in order, and then what is still held. */
  ghost predicate Fifo(whole: seq<nat>, sent: seq<nat>, lost: seq<nat>, held: seq<nat>) {
    exists gone :: whole == gone + held && Merged(sent, lost, gone)
  }

  lemma FifoMore(first: nat, whole: seq<nat>, sent: seq<nat>, lost: seq<nat>, held: seq<nat>)
    requires Fifo(whole, sent, lost, held)
    ensures Fifo([first] + whole, [first] + sent, lost, held) && Fifo([first] + whole, sent, [first] + lost, held)
  {
    var gone :| whole == gone + held && Merged(sent, lost, gone);
    assert [first] + whole == ([first] + gone) + held;
    assert ([first] + gone)[1..] == gone && ([first] + sent)[1..] == sent && ([first] + lost)[1..] == lost;
    assert Merged([first] + sent, lost, [first] + gone) && Merged(sent, [first] + lost, [first] + gone);
  }

  /** What one step does to forwarder f and to the stream. */
  lemma OneStep(s: State, l: Label, f: nat)
    requires f < |s.fwds| && Enabled(s, l)
    ensures var t := Do(s, l); var before, after := s.fwds[f].buffer, t.fwds[f].buffer;
      && |s.fwds| <= |t.fwds| && s.out <= t.out && t.fwds[f].terminal == s.fwds[f].terminal
      && (forall e :: e in s.fwds[f].dropped ==> e in t.fwds[f].dropped)
      && (if l == Forward(f) then before != [] && after == before[1..] && t.out == s.out + [Update(f, before[0])]
          else if FindsFull(s, l, f) then before != [] && after == before[1..] + [l.e] && before[0] in t.fwds[f].dropped && t.out == s.out
          else after == before + GivenBy(l, f) && (t.out == s.out || (|t.out| == |s.out| + 1 && SentBy(t.out[|s.out|], f) == [])))
  {
  }

  /** Dropped events stay recorded. */
  lemma {:induction false} DroppedStay(s: State, ls: seq<Label>, t: State, f: nat, e: nat)
    requires f < |s.fwds| && Reaches(s, ls, t) && e in s.fwds[f].dropped
    ensures f < |t.fwds| && e in t.fwds[f].dropped
    decreases |ls|
  {
    if ls != [] {
      OneStep(s, ls[0], f);
      DroppedStay(Do(s, ls[0]), ls[1..], t, f, e);
    }
  }

  /** What f sends over a run: what its first step sends, then the rest. */
  lemma SentFirst(s: State, l: Label, out: seq<Out>, f: nat)
    requires f < |s.fwds| && Enabled(s, l) && s.out <= Do(s, l).out <= out
    ensures Updates(out[|s.out|..], f)
         == (if l == Forward(f) then [s.fwds[f].buffer[0]] else []) + Updates(out[|Do(s, l).out|..], f)
  {
    OneStep(s, l, f);
    var m := Do(s, l);
    if m.out != s.out {
      assert out[|s.out|..][1..] == out[|m.out|..];
    }
  }

  /** What f holds and is given over a run, before and after its first step. */
  lemma GivenFirst(s: State, l: Label, given: seq<nat>, f: nat)
    requires f < |s.fwds| && Enabled(s, l)
    ensures f < |Do(s, l).fwds|
    ensures var whole, rest := s.fwds[f].buffer + (GivenBy(l, f) + given), Do(s, l).fwds[f].buffer + given;
      if l == Forward(f) || FindsFull(s, l, f) then s.fwds[f].buffer != [] && whole == [s.fwds[f].buffer[0]] + rest else whole == rest
  {
    OneStep(s, l, f);
    var b := s.fwds[f].buffer;
    if l == Forward(f) {
      assert b + given == [b[0]] + (b[1..] + given);
    } else if FindsFull(s, l, f) {
      assert b + ([l.e] + given) == [b[0]] + ((b[1..] + [l.e]) + given);
    } else {
      Associate(b, GivenBy(l, f), given);
    }
  }

  /** First in, first out.  Over any stretch of any run, what a forwarder held and was
      given is, in order, what it sent and what it lost, and then what it still holds;
      it lost one event for each publish that found a best-effort buffer full. */
  lemma {:induction false} SendsInOrder(s: State, ls: seq<Label>, t: State, f: nat) returns (lost: seq<nat>)
    requires f < |s.fwds| && Reaches(s, ls, t)
    ensures s.out <= t.out && f < |t.fwds|
    ensures Fifo(s.fwds[f].buffer + PublishedTo(ls, f), Updates(t.out[|s.out|..], f), lost, t.fwds[f].buffer)
    ensures |lost| == Overflows(s, ls, f) && forall e :: e in lost ==> e in t.fwds[f].dropped
    decreases |ls|
  {
    if ls == [] {
      lost := [];
      assert t.out[|s.out|..] == [] && Merged([], [], []);
      assert s.fwds[f].buffer + [] == [] + s.fwds[f].buffer;
    } else {
      var l, m, rest := ls[0], Do(s, ls[0]), ls[1..];
      OneStep(s, l, f);
      var later := SendsInOrder(m, rest, t, f);
      lost := (if FindsFull(s, l, f) then [s.fwds[f].buffer[0]] else []) + later;
      if FindsFull(s, l, f) { DroppedStay(m, rest, t, f, s.fwds[f].buffer[0]); }
      OrderStep(s, l, PublishedTo(rest, f), t, f, later);
      assert PublishedTo(ls, f) == GivenBy(l, f) + PublishedTo(rest, f);
    }
  }

  /** One more step at the front of a run whose rest keeps the order. */
  lemma OrderStep(s: State, l: Label, given: seq<nat>, t: State, f: nat, later: seq<nat>)
    requires f < |s.fwds| && Enabled(s, l) && f < |Do(s, l).fwds| && f < |t.fwds| && Do(s, l).out <= t.out
    requires Fifo(Do(s, l).fwds[f].buffer + given, Updates(t.out[|Do(s, l).out|..], f), later, t.fwds[f].buffer)
    ensures FindsFull(s, l, f) ==> s.fwds[f].buffer != []
    ensures s.out <= t.out
    ensures Fifo(s.fwds[f].buffer + (GivenBy(l, f) + given), Updates(t.out[|s.out|..], f),
                 (if FindsFull(s, l, f) then [s.fwds[f].buffer[0]] else []) + later, t.fwds[f].buffer)
  {
    OneStep(s, l, f);
    SentFirst(s, l, t.out, f);
    GivenFirst(s, l, given, f);
    var rest, sent := Do(s, l).fwds[f].buffer + given, Updates(t.out[|Do(s, l).out|..], f);
    if l == Forward(f) || FindsFull(s, l, f) {
      FifoMore(s.fwds[f].buffer[0], rest, sent, later, t.fwds[f].buffer);
    }
    assert [] + later == later && [] + sent == sent;
  }

  lemma {:induction false} NoOverflow(s: State, ls: seq<Label>, t: State, f: nat)
    requires f < |s.fwds| && Reaches(s, ls, t) && s.fwds[f].terminal
    ensures Overflows(s, ls, f) == 0
    decreases |ls|
  {
    if ls != [] {
      OneStep(s, ls[0], f);
      NoOverflow(Do(s, ls[0]), ls[1..], t, f);
    }
  }

  lemma {:induction false} MergedAlone(a: seq<nat>, whole: seq<nat>)
    requires Merged(a, [], whole)
    ensures a == whole
  {
    if whole != [] {
      MergedAlone(a[1..], whole[1..]);
    }
  }

  /** So a turn's updates are sent each once and in the order of publishing: sent, then
      still buffered, is what was sent and buffered before and then what was published. */
  lemma TurnSendsInOrder(s: State, ls: seq<Label>, t: State, f: nat)
    requires f < |s.fwds| && s.fwds[f].terminal && Reaches(s, ls, t)
    ensures f < |t.fwds|
    ensures Updates(t.out, f) + t.fwds[f].buffer == Updates(s.out, f) + s.fwds[f].buffer + PublishedTo(ls, f)
  {
    var lost := SendsInOrder(s, ls, t, f);
    NoOverflow(s, ls, t, f);
    var whole, sent := s.fwds[f].buffer + PublishedTo(ls, f), Updates(t.out[|s.out|..], f);
    var gone :| whole == gone + t.fwds[f].buffer && Merged(sent, lost, gone);
    MergedAlone(sent, gone);
    assert t.out == s.out + t.out[|s.out|..];
    UpdatesJoin(s.out, t.out[|s.out|..], f);
    Reassociate(Updates(s.out, f), sent, t.fwds[f].buffer, s.fwds[f].buffer, PublishedTo(ls, f));
  }

  lemma Reassociate(a: seq<nat>, b: seq<nat>, c: seq<nat>, d: seq<nat>, e: seq<nat>)
    requires b + c == d + e
    ensures (a + b) + c == a + d + e
  {
    assert (a + b) + c == a + (b + c);
    assert a + d + e == a + (d + e);
  }

  lemma {:induction false} Splice(s: State, ls: seq<Label>, m: State, l: Label)
    requires Reaches(s, ls, m) && Enabled(m, l)
    ensures Reaches(s, ls + [l], Do(m, l))
    decreases |ls|
  {
    if ls == [] {
      assert [l][1..] == [] && Reaches(Do(m, l), [], Do(m, l));
    } else {
      Splice(Do(s, ls[0]), ls[1..], m, l);
      assert (ls + [l])[1..] == ls[1..] + [l];
    }
  }

  // ------------------------------------------------ what the excuses come from

  /** Nothing excuses forwarder f, nor barrier b. */
  ghost predicate Blameless(s: State, b: nat, f: nat) {
    && (f < |s.fwds| ==> !s.fwds[f].quit && !s.fwds[f].cancelled && s.fwds[f].cut == {} && s.fwds[f].dropped == {})
    && (b in s.bars ==> !s.bars[b].expired)
  }

  lemma BlamelessStep(s: State, l: Label, b: nat, f: nat)
    requires Blameless(s, b, f) && Enabled(s, l) && l !in {Expire(b), CancelForwarder(f), CancelTurn(f)} && !FindsFull(s, l, f)
    ensures Blameless(Do(s, l), b, f)
  {
  }

  lemma {:induction false} BlamelessRun(s: State, ls: seq<Label>, t: State, b: nat, f: nat)
    requires Blameless(s, b, f) && Reaches(s, ls, t) && Overflows(s, ls, f) == 0
    requires Expire(b) !in ls && CancelForwarder(f) !in ls && CancelTurn(f) !in ls
    ensures Blameless(t, b, f)
    decreases |ls|
  {
    if ls != [] {
      BlamelessStep(s, ls[0], b, f);
      BlamelessRun(Do(s, ls[0]), ls[1..], t, b, f);
    }
  }

  /** Read your writes in terms of what happened: in a run in which the barrier's bound does
      not expire, the forwarder is not cancelled and its buffer never overflows, the
      response comes after every update that was buffered when the barrier began. */
  lemma PlainReadYourWrites(before: seq<Label>, s: State, ls: seq<Label>, t: State, b: nat, f: nat, e: nat)
    requires Reaches(Start, before, s) && Reaches(s, ls, t) && ToAsk(s, b, f) && Buffered(s, f, e) && Enabled(t, Respond(b))
    requires Overflows(Start, before, f) == 0 && Overflows(s, ls, f) == 0
    requires forall l :: l in {Expire(b), CancelForwarder(f), CancelTurn(f)} ==> l !in before && l !in ls
    ensures Update(f, e) in t.out && Do(t, Respond(b)).out == t.out + [Response(b)]
  {
    assert Expire(b) in {Expire(b), CancelForwarder(f), CancelTurn(f)};
    BlamelessRun(Start, before, s, b, f);
    BlamelessRun(s, ls, t, b, f);
    ReadYourWrites(before, s, ls, t, b, f, e);
  }

  // ------------------------------------------------------------------- progress

  /** A barrier that waits, waits for a forwarder that is gone or is answering it. */
  ghost predicate StageOk(s: State, b: nat) {
    b in s.bars ==>
      match s.bars[b].stage
      case Snapshotting(m) => m < MANAGERS
      case Asking(m, fences, i) => m < MANAGERS && i <= |fences| && forall k :: 0 <= k < |fences| ==> fences[k] < |s.fwds|
      case Waiting(m, fences, i) =>
        && m < MANAGERS && i < |fences| && (forall k :: 0 <= k < |fences| ==> fences[k] < |s.fwds|)
        && (In(s, fences[i], Gone) || (In(s, fences[i], Looping) && s.fwds[fences[i]].serving.Some? && s.fwds[fences[i]].serving.value.0 == b))
      case _ => true
  }

  ghost predicate FencesOk(s: State) {
    forall m, k :: m in s.fences && 0 <= k < |s.fences[m]| ==> s.fences[m][k] < |s.fwds|
  }

  lemma {:induction false} WithoutWithin(fences: seq<nat>, f: nat, n: nat)
    requires forall k :: 0 <= k < |fences| ==> fences[k] < n
    ensures forall k :: 0 <= k < |Without(fences, f)| ==> Without(fences, f)[k] < n
  {
    if fences != [] {
      WithoutWithin(fences[1..], f, n);
    }
  }

  lemma FencesKeep(s: State, l: Label)
    requires FencesOk(s) && Enabled(s, l)
    ensures FencesOk(Do(s, l)) && |s.fwds| <= |Do(s, l).fwds|
  {
    if (l.Leave? || l.CancelForwarder?) && s.fwds[l.f].manager in s.fences {
      WithoutWithin(s.fences[s.fwds[l.f].manager], l.f, |s.fwds|);
    }
  }

  lemma StageKeepsOwn(s: State, l: Label, b: nat)
    requires FencesOk(s) && StageOk(s, b) && Enabled(s, l) && !l.Attach? && !l.Publish?
    requires l.Begin? || l.Snapshot? || l.HandOver? || l.SeeGone? || l.NextManager? || l.Expire? || l.Respond?
    ensures StageOk(Do(s, l), b)
  {
  }

  lemma StageKeepsOther(s: State, l: Label, b: nat)
    requires FencesOk(s) && StageOk(s, b) && Enabled(s, l)
    requires !(l.Begin? || l.Snapshot? || l.HandOver? || l.SeeGone? || l.NextManager? || l.Expire? || l.Respond?)
    ensures StageOk(Do(s, l), b)
  {
  }

  ghost predicate Orderly(s: State) {
    Tidy(s) && FencesOk(s) && forall b :: StageOk(s, b)
  }

  lemma OrderlyStep(s: State, l: Label)
    requires Orderly(s) && Enabled(s, l)
    ensures Orderly(Do(s, l))
  {
    TidyKeeps(s, l);
    FencesKeep(s, l);
    forall b ensures StageOk(Do(s, l), b) {
      if l.Begin? || l.Snapshot? || l.HandOver? || l.SeeGone? || l.NextManager? || l.Expire? || l.Respond? {
        StageKeepsOwn(s, l, b);
      } else {
        StageKeepsOther(s, l, b);
      }
    }
  }

  lemma {:induction false} OrderlyRun(s: State, ls: seq<Label>, t: State)
    requires Orderly(s) && Reaches(s, ls, t)
    ensures Orderly(t)
    decreases |ls|
  {
    if ls != [] {
      OrderlyStep(s, ls[0]);
      OrderlyRun(Do(s, ls[0]), ls[1..], t);
    }
  }

  /** The forwarder's own step towards answering or leaving. */
  function ForwarderNext(s: State, f: nat): Label
    requires f < |s.fwds|
  {
    match s.fwds[f].phase
    case Looping => if s.fwds[f].serving.Some? && s.fwds[f].serving.value.1 > 0 then Forward(f) else Answer(f)
    case Draining => if s.fwds[f].buffer != [] then Forward(f) else DrainedAll(f)
    case _ => Leave(f)
  }

  /** The step that takes an unanswered barrier on: its own, or that of the forwarder it
      asks or waits for. */
  function Next(s: State, b: nat): Label
    requires b in s.bars
  {
    match s.bars[b].stage
    case Snapshotting(_) => Snapshot(b)
    case Asking(_, fences, i) =>
      if i >= |fences| then NextManager(b)
      else if fences[i] >= |s.fwds| || s.fwds[fences[i]].phase.Gone? then SeeGone(b)
      else if s.fwds[fences[i]].phase.Looping? && s.fwds[fences[i]].serving.None? then HandOver(b)
      else ForwarderNext(s, fences[i])
    case Waiting(_, fences, i) =>
      if i >= |fences| || fences[i] >= |s.fwds| || s.fwds[fences[i]].phase.Gone? then SeeGone(b) else ForwarderNext(s, fences[i])
    case _ => Respond(b)
  }

  function ManagersLeft(x: Stage): nat {
    match x
    case Snapshotting(m) => if m < MANAGERS then 2 * (MANAGERS - m) + 1 else 0
    case Asking(m, _, _) => if m < MANAGERS then 2 * (MANAGERS - m) else 0
    case Waiting(m, _, _) => if m < MANAGERS then 2 * (MANAGERS - m) else 0
    case _ => 0
  }

  function FencesLeft(x: Stage): nat {
    match x
    case Asking(_, fences, i) => if i <= |fences| then 2 * (|fences| - i) + 1 else 0
    case Waiting(_, fences, i) => if i <= |fences| then 2 * (|fences| - i) else 0
    case _ => 0
  }

  function Busy(x: Forwarder): nat {
    match x.phase
    case Looping => if x.serving.Some? then 1 + x.serving.value.1 else 0
    case Draining => 2 + |x.buffer|
    case Finishing => 1
    case Gone => 0
  }

  function BusyFor(s: State, b: nat): nat {
    if AtFence(s, b, true) || AtFence(s, b, false) then Busy(s.fwds[Target(s, b)]) else 0
  }

  predicate Unanswered(s: State, b: nat) { b in s.bars && !s.bars[b].stage.Complete? && !s.bars[b].stage.Responded? }

  /** That step is never the bound's and never a cancellation, is enabled in every
      reachable state, and brings the barrier nearer its response. */
  predicate Advances(s: State, b: nat, l: Label) {
    && !l.Expire? && !l.CancelForwarder? && !l.CancelTurn? && Enabled(s, l) && b in s.bars && b in Do(s, l).bars
    && var x, y := s.bars[b].stage, Do(s, l).bars[b].stage;
       && !y.Responded? && Do(s, l).bars[b].expired == s.bars[b].expired
       && (|| ManagersLeft(y) < ManagersLeft(x)
           || (ManagersLeft(y) == ManagersLeft(x) && FencesLeft(y) < FencesLeft(x))
           || (y == x && BusyFor(Do(s, l), b) < BusyFor(s, b)))
  }

  lemma OwnAdvances(s: State, b: nat)
    requires Orderly(s) && Unanswered(s, b) && Next(s, b) in {Snapshot(b), NextManager(b), SeeGone(b), HandOver(b)}
    ensures Advances(s, b, Next(s, b))
  {
    assert StageOk(s, b);
  }

  lemma ForwarderAdvances(s: State, b: nat)
    requires Orderly(s) && Unanswered(s, b) && Next(s, b) !in {Snapshot(b), NextManager(b), SeeGone(b), HandOver(b)}
    ensures Advances(s, b, Next(s, b))
  {
    assert StageOk(s, b);
  }

  /** No barrier is stuck: from every reachable state in which one is unanswered, its own
      steps and those of the forwarders it asks lead to its response, with no bound
      expiring and nothing cancelled. */
  lemma {:induction false} Completes(s: State, b: nat) returns (ls: seq<Label>, t: State)
    requires Orderly(s) && b in s.bars && !s.bars[b].stage.Responded?
    ensures Reaches(s, ls, t) && Enabled(t, Respond(b)) && t.bars[b].expired == s.bars[b].expired
    ensures forall k :: 0 <= k < |ls| ==> !ls[k].Expire? && !ls[k].CancelForwarder? && !ls[k].CancelTurn?
    decreases ManagersLeft(s.bars[b].stage), FencesLeft(s.bars[b].stage), BusyFor(s, b)
  {
    if s.bars[b].stage.Complete? {
      return [], s;
    }
    var l := Next(s, b);
    if l in {Snapshot(b), NextManager(b), SeeGone(b), HandOver(b)} { OwnAdvances(s, b); } else { ForwarderAdvances(s, b); }
    OrderlyStep(s, l);
    ls, t := Completes(Do(s, l), b);
    assert ([l] + ls)[1..] == ls;
    ls := [l] + ls;
  }

  lemma EveryBarrierCompletes(before: seq<Label>, s: State, b: nat) returns (ls: seq<Label>, t: State)
    requires Reaches(Start, before, s) && b in s.bars && !s.bars[b].stage.Responded?
    ensures Reaches(s, ls, t) && Enabled(t, Respond(b)) && t.bars[b].expired == s.bars[b].expired
    ensures forall k :: 0 <= k < |ls| ==> !ls[k].Expire? && !ls[k].CancelForwarder? && !ls[k].CancelTurn?
  {
    assert Orderly(Start);
    OrderlyRun(Start, before, s);
    ls, t := Completes(s, b);
  }

  function Forwards(f: nat, n: nat): seq<Label> { if n == 0 then [] else [Forward(f)] + Forwards(f, n - 1) }

  lemma SendOne(s: State, f: nat)
    requires f < |s.fwds| && s.fwds[f].serving.None? && Enabled(s, Forward(f))
    ensures var m, b := Do(s, Forward(f)), s.fwds[f].buffer;
      f < |m.fwds| && m.fwds[f] == s.fwds[f].(buffer := b[1..]) && Updates(m.out, f) == Updates(s.out, f) + [b[0]]
  {
    var e := s.fwds[f].buffer[0];
    UpdatesJoin(s.out, [Update(f, e)], f);
    assert [Update(f, e)][1..] == [] && SentBy(Update(f, e), f) == [e];
  }

  /** Without any barrier too, a forwarder that loops or drains sends what it holds. */
  lemma {:induction false} SendsAll(s: State, f: nat) returns (t: State)
    requires f < |s.fwds| && s.fwds[f].serving.None? && (s.fwds[f].phase.Looping? || s.fwds[f].phase.Draining?)
    ensures Reaches(s, Forwards(f, |s.fwds[f].buffer|), t) && f < |t.fwds| && t.fwds[f] == s.fwds[f].(buffer := [])
    ensures Updates(t.out, f) == Updates(s.out, f) + s.fwds[f].buffer
    decreases |s.fwds[f].buffer|
  {
    if s.fwds[f].buffer == [] {
      t := s;
    } else {
      var b := s.fwds[f].buffer;
      SendOne(s, f);
      t := SendsAll(Do(s, Forward(f)), f);
      Associate(Updates(s.out, f), [b[0]], b[1..]);
      assert b == [b[0]] + b[1..];
      assert Forwards(f, |s.fwds[f].buffer|)[1..] == Forwards(f, |s.fwds[f].buffer| - 1);
    }
  }

  lemma LateStep(s: State, l: Label, f: nat, e: nat)
    requires f < |s.fwds| && (s.fwds[f].phase.Finishing? || s.fwds[f].phase.Gone?) && Update(f, e) !in s.out && Enabled(s, l)
    ensures var t := Do(s, l);
      f < |t.fwds| && (t.fwds[f].phase.Finishing? || t.fwds[f].phase.Gone?) && Update(f, e) !in t.out
  {
  }

  /** The moment matters: once a final drain found nothing more, an event buffered
      later is never forwarded, in any continuation. */
  lemma {:induction false} LateNeverSent(s: State, ls: seq<Label>, t: State, f: nat, e: nat)
    requires f < |s.fwds| && (s.fwds[f].phase.Finishing? || s.fwds[f].phase.Gone?)
    requires Update(f, e) !in s.out && Reaches(s, ls, t)
    ensures Update(f, e) !in t.out
    decreases |ls|
  {
    if ls != [] {
      LateStep(s, ls[0], f, e);
      LateNeverSent(Do(s, ls[0]), ls[1..], t, f, e);
    }
  }

  function Late(phase: Phase, buffer: seq<nat>): Forwarder {
    Forwarder(0, true, phase, buffer, None, false, false, {}, {})
  }

  lemma LateAttach()
    ensures Do(Start, Attach(0, true)) == State([Late(Looping, [])], map[0 := [0], 1 := [], 2 := []], map[], [])
  {
    assert Start.fences[0] + [0] == [0] && Start.fences[0 := [0]] == map[0 := [0], 1 := [], 2 := []];
  }

  lemma LateSteps(s: State, e: nat)
    requires |s.fwds| == 1 && s.fwds[0] == Late(Looping, [])
    ensures Reaches(s, [EndLoop(0), DrainedAll(0), Publish(0, e)], s.(fwds := [Late(Finishing, [e])]))
  {
    var s2, s3, s4 := s.(fwds := [Late(Draining, [])]), s.(fwds := [Late(Finishing, [])]), s.(fwds := [Late(Finishing, [e])]);
    assert Do(s, EndLoop(0)) == s2 && Do(s2, DrainedAll(0)) == s3;
    assert Published(Late(Finishing, []), e).buffer == [e];
    assert Do(s3, Publish(0, e)) == s4;
    Splice(s, [], s, EndLoop(0));
    Splice(s, [EndLoop(0)], s2, DrainedAll(0));
    Splice(s, [EndLoop(0), DrainedAll(0)], s3, Publish(0, e));
  }

  lemma LateBuffers(e: nat) returns (ls: seq<Label>)
    ensures Reaches(Start, ls, State([Late(Finishing, [e])], map[0 := [0], 1 := [], 2 := []], map[], []))
  {
    var s := Do(Start, Attach(0, true));
    LateAttach();
    Splice(Start, [], Start, Attach(0, true));
    LateSteps(s, e);
    Joined(Start, [Attach(0, true)], s, [EndLoop(0), DrainedAll(0), Publish(0, e)], s.(fwds := [Late(Finishing, [e])]));
    ls := [Attach(0, true)] + [EndLoop(0), DrainedAll(0), Publish(0, e)];
  }

  function LateState(e: nat, stage: Stage): State {
    State([Late(Gone, [e])], map[0 := [], 1 := [], 2 := []], map[0 := Bar(stage, false)], [])
  }

  lemma LateLeaves(e: nat, s: State)
    requires s == State([Late(Finishing, [e])], map[0 := [0], 1 := [], 2 := []], map[0 := Bar(Asking(0, [0], 0), false)], [])
    ensures Enabled(s, Leave(0)) && Do(s, Leave(0)) == LateState(e, Asking(0, [0], 0))
  {
    assert Without([0], 0) == [];
    assert Removed(s, 0) == map[0 := [], 1 := [], 2 := []];
    assert s.fwds[0 := Late(Gone, [e])] == [Late(Gone, [e])];
  }

  lemma LateAsks(e: nat, s: State)
    requires s == State([Late(Finishing, [e])], map[0 := [0], 1 := [], 2 := []], map[], [])
    ensures Enabled(s, Begin(0)) && Reaches(Do(s, Begin(0)), [Snapshot(0), Leave(0), SeeGone(0), NextManager(0)], LateState(e, Snapshotting(1)))
  {
    var t := Do(s, Begin(0));
    var t1 := State(s.fwds, s.fences, map[0 := Bar(Asking(0, [0], 0), false)], []);
    var t2, t3, t4 := LateState(e, Asking(0, [0], 0)), LateState(e, Asking(0, [0], 1)), LateState(e, Snapshotting(1));
    LateLeaves(e, t1);
    assert Do(t, Snapshot(0)).bars == t1.bars;
    assert Do(t2, SeeGone(0)) == t3;
    assert Do(t3, NextManager(0)) == t4;
    LateChain(t, t1, t2, t3, t4);
  }

  lemma LateChain(t: State, t1: State, t2: State, t3: State, t4: State)
    requires Enabled(t, Snapshot(0)) && Do(t, Snapshot(0)) == t1 && Enabled(t1, Leave(0)) && Do(t1, Leave(0)) == t2
    requires Enabled(t2, SeeGone(0)) && Do(t2, SeeGone(0)) == t3 && Enabled(t3, NextManager(0)) && Do(t3, NextManager(0)) == t4
    ensures Reaches(t, [Snapshot(0), Leave(0), SeeGone(0), NextManager(0)], t4)
  {
    Splice(t, [], t, Snapshot(0));
    Splice(t, [Snapshot(0)], t1, Leave(0));
    Splice(t, [Snapshot(0), Leave(0)], t2, SeeGone(0));
    Splice(t, [Snapshot(0), Leave(0), SeeGone(0)], t3, NextManager(0));
  }

  /** A manager with no fence for the session is passed in two steps. */
  lemma LatePasses(e: nat, m: nat)
    requires 1 <= m < MANAGERS
    ensures Reaches(LateState(e, Snapshotting(m)), [Snapshot(0), NextManager(0)],
                    LateState(e, if m + 1 < MANAGERS then Snapshotting(m + 1) else Complete))
  {
    var s, t1 := LateState(e, Snapshotting(m)), LateState(e, Asking(m, [], 0));
    assert Do(s, Snapshot(0)).bars == t1.bars;
    var t2 := LateState(e, if m + 1 < MANAGERS then Snapshotting(m + 1) else Complete);
    assert Do(t1, NextManager(0)).bars == t2.bars;
    Splice(s, [], s, Snapshot(0));
    Splice(s, [Snapshot(0)], t1, NextManager(0));
  }

  /** Such a run exists: a barrier begins while the late event is buffered, asks the
      fence, sees it close, expires nowhere, and responds without the update. */
  lemma LateEventIsMissed(e: nat) returns (before: seq<Label>, s: State, after: seq<Label>, t: State)
    ensures Reaches(Start, before, s) && |s.fwds| == 1 && e in s.fwds[0].buffer
    ensures Enabled(s, Begin(0)) && ToAsk(Do(s, Begin(0)), 0, 0) && Reaches(Do(s, Begin(0)), after, t)
    ensures Enabled(t, Respond(0)) && !t.bars[0].expired && |t.fwds| == 1 && !t.fwds[0].quit && t.fwds[0].cut == {} && t.fwds[0].dropped == {}
    ensures Update(0, e) !in t.out
  {
    before := LateBuffers(e);
    s := State([Late(Finishing, [e])], map[0 := [0], 1 := [], 2 := []], map[], []);
    LateAsks(e, s);
    LatePasses(e, 1);
    LatePasses(e, 2);
    t := LateState(e, Complete);
    var first, pass := [Snapshot(0), Leave(0), SeeGone(0), NextManager(0)], [Snapshot(0), NextManager(0)];
    Joined(LateState(e, Snapshotting(1)), pass, LateState(e, Snapshotting(2)), pass, t);
    Joined(Do(s, Begin(0)), first, LateState(e, Snapshotting(1)), pass + pass, t);
    after := first + (pass + pass);
  }

  lemma {:induction false} Joined(s: State, ls: seq<Label>, m: State, rest: seq<Label>, t: State)
    requires Reaches(s, ls, m) && Reaches(m, rest, t)
    ensures Reaches(s, ls + rest, t)
    decreases |ls|
  {
    if ls == [] {
      assert ls + rest == rest;
    } else {
      Joined(Do(s, ls[0]), ls[1..], m, rest, t);
      assert (ls + rest)[1..] == ls[1..] + rest;
    }
  }

  // ------------------------------------------------------------- the fence set

  /** fenceSet: the live fences of one manager's forwarders, by session. */
  class FenceSet {
    var fences: map<string, seq<nat>>

    constructor ()
      ensures fences == map[]
    {
      fences := map[];
    }

    function Listed(session: string): seq<nat>
      reads this
    {
      if session in fences then fences[session] else []
    }

    method Add(session: string, f: nat)
      modifies this
      ensures Listed(session) == old(Listed(session)) + [f]
      ensures forall other :: other != session ==> Listed(other) == old(Listed(other))
    {
      fences := fences[session := Listed(session) + [f]];
    }

    /** Drop f by identity, keeping the order of the rest; unknown is a no-op. */
    method Remove(session: string, f: nat)
      modifies this
      ensures Listed(session) == Without(old(Listed(session)), f)
      ensures forall other :: other != session ==> Listed(other) == old(Listed(other))
    {
      var list := Listed(session);
      var i := 0;
      while i < |list| && list[i] != f
        invariant i <= |list| && forall k :: 0 <= k < i ==> list[k] != f
      {
        i := i + 1;
      }
      WithoutAt(list, f, i);
      if i < |list| {
        list := list[..i] + list[i + 1..];
      }
      if |list| == 0 {
        fences := fences - {session};
      } else {
        fences := fences[session := list];
      }
    }
  }

  lemma {:induction false} WithoutAt(fences: seq<nat>, f: nat, i: nat)
    requires i <= |fences| && (forall k :: 0 <= k < i ==> fences[k] != f) && (i < |fences| ==> fences[i] == f)
    ensures Without(fences, f) == if i < |fences| then fences[..i] + fences[i + 1..] else fences
  {
    if i > 0 {
      WithoutAt(fences[1..], f, i - 1);
      assert [fences[0]] + fences[1..] == fences;
      if i < |fences| { assert fences[..i] + fences[i + 1..] == [fences[0]] + (fences[1..][..i - 1] + fences[1..][i..]); }
    }
  }
}
