/** Work-state forwarders (internal/acp/watch.go, WorkManagerACP).

    One goroutine per session forwards work snapshots.  Ensure registers it, its
    own exit retires it and may rebind a successor, and Close stops them all.
    Every lock-protected region is one atomic step. */
module WorkForwarders {
  import opened Common

  type Sid = string
  type Epoch = string

  /** The controller's fields: forwarders are numbered in order of registration. */
  datatype Table = Table(closed: bool, forwarders: map<Sid, nat>)

  predicate Admits(t: Table, sid: Sid) { !t.closed && sid !in t.forwarders }

  function Ensured(t: Table, sid: Sid, f: nat): Table {
    if Admits(t, sid) then t.(forwarders := t.forwarders[sid := f]) else t
  }

  function Retired(t: Table, sid: Sid, f: nat): Table {
    if sid in t.forwarders && t.forwarders[sid] == f then t.(forwarders := t.forwarders - {sid}) else t
  }

  function Shut(t: Table): Table { Table(true, map[]) }

  // ------------------------------------------------------------- the protocol

  /** A forwarder: registered, running with the epoch it bound, leaving its loop,
      out of the map, and joined (its done channel closed). */
  datatype Phase = Registered | Running | Leaving | Unlisted(sawClosed: bool) | Done(sawClosed: bool) | Gone

  datatype Forwarder = Forwarder(sid: Sid, phase: Phase, epoch: Epoch, dones: nat)

  datatype Sent = Sent(f: nat, epoch: Epoch)

  /** A Close call: joining the forwarders it took, or returned.  The call that set
      the flag is the first; any other returns at once. */
  datatype CloseCall = Joining(pending: set<nat>) | Returned(first: bool)

  datatype State = State(t: Table, fwds: seq<Forwarder>, closes: map<nat, CloseCall>, log: seq<Sent>)

  const Start := State(Table(false, map[]), [], map[], [])

  datatype Label =
    | Ensure(sid: Sid)
    | Bind(f: nat, epoch: Epoch)
    | Deliver(f: nat, epoch: Epoch)
    | Leave(f: nat)
    | Retire(f: nat)
    | CloseDone(f: nat)
    | Rebind(f: nat, replaced: bool)
    | CloseStart(c: nat)
    | Join(c: nat, f: nat)
    | CloseReturn(c: nat)

  predicate InPhase(s: State, f: nat, p: Phase) { f < |s.fwds| && s.fwds[f].phase == p }

  predicate Live(s: State, f: nat) {
    InPhase(s, f, Registered) || InPhase(s, f, Running) || InPhase(s, f, Leaving)
  }

  predicate Enabled(s: State, l: Label) {
    match l
    case Ensure(_) => true
    case Bind(f, _) => InPhase(s, f, Registered)
    case Deliver(f, _) => InPhase(s, f, Running)
    case Leave(f) => InPhase(s, f, Running)
    case Retire(f) => InPhase(s, f, Leaving)
    case CloseDone(f) => f < |s.fwds| && s.fwds[f].phase.Unlisted?
    case Rebind(f, _) => f < |s.fwds| && s.fwds[f].phase.Done?
    case CloseStart(c) => c !in s.closes
    case Join(c, f) => c in s.closes && s.closes[c].Joining? && f in s.closes[c].pending && f < |s.fwds| && s.fwds[f].dones >= 1
    case CloseReturn(c) => c in s.closes && s.closes[c].Joining? && s.closes[c].pending == {}
  }

  function Registering(s: State, sid: Sid): State {
    if Admits(s.t, sid)
    then s.(t := Ensured(s.t, sid, |s.fwds|), fwds := s.fwds + [Forwarder(sid, Registered, "", 0)])
    else s
  }

  function Move(s: State, f: nat, p: Phase): State
    requires f < |s.fwds|
  {
    s.(fwds := s.fwds[f := s.fwds[f].(phase := p)])
  }

  function Do(s: State, l: Label): State
    requires Enabled(s, l)
  {
    match l
    case Ensure(sid) => Registering(s, sid)
    case Bind(f, epoch) => s.(fwds := s.fwds[f := s.fwds[f].(phase := Running, epoch := epoch)])
    case Deliver(f, epoch) => if epoch == s.fwds[f].epoch then s.(log := s.log + [Sent(f, epoch)]) else s
    case Leave(f) => Move(s, f, Leaving)
    case Retire(f) => Move(s, f, Unlisted(s.t.closed)).(t := Retired(s.t, s.fwds[f].sid, f))
    case CloseDone(f) => s.(fwds := s.fwds[f := s.fwds[f].(phase := Done(s.fwds[f].phase.sawClosed), dones := s.fwds[f].dones + 1)])
    case Rebind(f, replaced) =>
      var s' := Move(s, f, Gone);
      if !s.fwds[f].phase.sawClosed && replaced then Registering(s', s.fwds[f].sid) else s'
    case CloseStart(c) =>
      if s.t.closed then s.(closes := s.closes[c := Returned(false)])
      else s.(t := Shut(s.t), closes := s.closes[c := Joining(s.t.forwarders.Values)])
    case Join(c, f) => s.(closes := s.closes[c := Joining(s.closes[c].pending - {f})])
    case CloseReturn(c) => s.(closes := s.closes[c := Returned(true)])
  }

  ghost predicate Reaches(s: State, ls: seq<Label>, t: State)
    decreases |ls|
  {
    if ls == [] then s == t else Enabled(s, ls[0]) && Reaches(Do(s, ls[0]), ls[1..], t)
  }

  // ------------------------------------------------------------------- safety

  predicate Listed(s: State, f: nat) {
    f < |s.fwds| && s.fwds[f].sid in s.t.forwarders && s.t.forwarders[s.fwds[f].sid] == f
  }

  predicate Awaited(s: State, c: nat, f: nat) {
    c in s.closes && s.closes[c].Joining? && f in s.closes[c].pending
  }

  /** A forwarder that may still send is in the map, or the Close that emptied the
      map is still waiting for it. */
  ghost predicate Tracked(s: State, f: nat) {
    Listed(s, f) || exists c :: Awaited(s, c, f)
  }

  ghost predicate Tables(s: State) {
    && (s.t.closed ==> s.t.forwarders == map[])
    && (forall sid :: sid in s.t.forwarders ==>
          var f := s.t.forwarders[sid]; f < |s.fwds| && s.fwds[f].sid == sid && Live(s, f))
    && (forall c :: c in s.closes ==> s.t.closed)
  }

  ghost predicate Forwarders(s: State) {
    && (forall f: nat :: Live(s, f) ==> Tracked(s, f))
    && (forall f: nat, g: nat :: Live(s, f) && Live(s, g) && s.fwds[f].sid == s.fwds[g].sid ==> f == g)
    && (forall f: nat :: f < |s.fwds| ==> s.fwds[f].dones == if s.fwds[f].phase.Done? || s.fwds[f].phase.Gone? then 1 else 0)
  }

  /** Only the Close that set the flag waits, and it returns with nothing to wait for. */
  ghost predicate Closes(s: State) {
    && (forall c, d :: c in s.closes && d in s.closes && First(s, c) && First(s, d) ==> c == d)
    && (forall e :: e in s.log ==> e.f < |s.fwds| && !s.fwds[e.f].phase.Registered? && s.fwds[e.f].epoch == e.epoch)
  }

  predicate First(s: State, c: nat) {
    c in s.closes && (s.closes[c].Joining? || s.closes[c].first)
  }

  ghost predicate Safe(s: State) {
    Tables(s) && Forwarders(s) && Closes(s) && (s.t.closed ==> exists c :: First(s, c))
  }

  lemma TablesKeep(s: State, l: Label)
    requires Safe(s) && Enabled(s, l)
    ensures Tables(Do(s, l))
  {
    var t := Do(s, l);
    forall sid | sid in t.t.forwarders
      ensures var f := t.t.forwarders[sid]; f < |t.fwds| && t.fwds[f].sid == sid && Live(t, f)
    {
      assert sid in s.t.forwarders || (|t.fwds| > |s.fwds| && t.t.forwarders[sid] == |s.fwds|);
    }
  }

  lemma TrackedKeeps(s: State, l: Label, f: nat)
    requires Safe(s) && Enabled(s, l) && Live(Do(s, l), f)
    ensures Tracked(Do(s, l), f)
  {
    var t := Do(s, l);
    if f < |s.fwds| {
      assert Live(s, f) && s.fwds[f].sid == t.fwds[f].sid;
      if Listed(s, f) {
        if l.CloseStart? && !s.t.closed { assert Awaited(t, l.c, f); }
      } else {
        var c :| Awaited(s, c, f);
        assert Awaited(t, c, f);
      }
    } else {
      assert Listed(t, f);
    }
  }

  lemma ForwardersKeep(s: State, l: Label)
    requires Safe(s) && Enabled(s, l)
    ensures Forwarders(Do(s, l))
  {
    var t := Do(s, l);
    forall f: nat | Live(t, f) ensures Tracked(t, f) { TrackedKeeps(s, l, f); }
    forall f: nat, g: nat | Live(t, f) && Live(t, g) && t.fwds[f].sid == t.fwds[g].sid ensures f == g {
      assert f < |s.fwds| ==> Live(s, f);
      assert g < |s.fwds| ==> Live(s, g);
      OnlyOpenAdds(s, l);
    }
  }

  /** A new forwarder is added only while open and only for an unlisted session. */
  lemma OnlyOpenAdds(s: State, l: Label)
    requires Safe(s) && Enabled(s, l)
    ensures var t := Do(s, l);
      && |s.fwds| <= |t.fwds| <= |s.fwds| + 1
      && (|t.fwds| > |s.fwds| ==> forall f: nat :: f < |s.fwds| && Live(t, f) ==> s.fwds[f].sid != t.fwds[|s.fwds|].sid)
  {
    var t := Do(s, l);
    if |t.fwds| > |s.fwds| {
      forall f: nat | f < |s.fwds| && Live(t, f) ensures s.fwds[f].sid != t.fwds[|s.fwds|].sid {
        assert Live(s, f) && Tracked(s, f);
        assert forall c :: !Awaited(s, c, f);
      }
    }
  }

  lemma ClosesKeep(s: State, l: Label)
    requires Safe(s) && Enabled(s, l)
    ensures Closes(Do(s, l)) && (Do(s, l).t.closed ==> exists c :: First(Do(s, l), c))
  {
    var t := Do(s, l);
    forall c | c in t.closes ensures First(t, c) ==> First(s, c) || (l == CloseStart(c) && !s.t.closed) {}
    if s.t.closed {
      var c :| First(s, c);
      assert First(t, c);
    } else if l.CloseStart? {
      assert First(t, l.c);
    }
    OnlyOpenAdds(s, l);
  }

  lemma StepKeeps(s: State, l: Label)
    requires Safe(s) && Enabled(s, l)
    ensures Safe(Do(s, l))
  {
    TablesKeep(s, l);
    ForwardersKeep(s, l);
    ClosesKeep(s, l);
  }

  lemma {:induction false} RunKeeps(s: State, ls: seq<Label>, t: State)
    requires Safe(s) && Reaches(s, ls, t)
    ensures Safe(t)
    decreases |ls|
  {
    if ls != [] {
      StepKeeps(s, ls[0]);
      RunKeeps(Do(s, ls[0]), ls[1..], t);
    }
  }

  /** In every interleaving: a session has at most one forwarder that may send,
      each done channel closes at most once, every sent snapshot carries the epoch
      its forwarder bound, and a retiring forwarder finds its own entry or none. */
  lemma RunIsSafe(ls: seq<Label>, s: State)
    requires Reaches(Start, ls, s)
    ensures forall f: nat, g: nat :: Live(s, f) && Live(s, g) && s.fwds[f].sid == s.fwds[g].sid ==> f == g
    ensures forall f: nat :: f < |s.fwds| ==> s.fwds[f].dones <= 1
    ensures forall e :: e in s.log ==> e.f < |s.fwds| && s.fwds[e.f].epoch == e.epoch
    ensures forall f: nat :: InPhase(s, f, Leaving) ==> s.fwds[f].sid !in s.t.forwarders || s.t.forwarders[s.fwds[f].sid] == f
  {
    RunKeeps(Start, ls, s);
    forall f: nat | InPhase(s, f, Leaving)
      ensures s.fwds[f].sid !in s.t.forwarders || s.t.forwarders[s.fwds[f].sid] == f
    {
      assert Live(s, f) && Tracked(s, f);
    }
  }

  /** Once closed nothing registers, whatever runs next. */
  lemma {:induction false} ClosedRegistersNothing(s: State, ls: seq<Label>, t: State)
    requires Safe(s) && s.t.closed && Reaches(s, ls, t)
    ensures t.t.closed && t.t.forwarders == map[] && |t.fwds| == |s.fwds|
    decreases |ls|
  {
    if ls != [] {
      StepKeeps(s, ls[0]);
      ClosedRegistersNothing(Do(s, ls[0]), ls[1..], t);
    }
  }

  // ------------------------------------------------------- quiet after Close

  ghost predicate Quiet(s: State) {
    s.t.closed && forall f: nat :: !Live(s, f)
  }

  lemma QuietStep(s: State, l: Label)
    requires Safe(s) && Quiet(s) && Enabled(s, l)
    ensures Quiet(Do(s, l)) && Do(s, l).log == s.log
  {
    var t := Do(s, l);
    forall f: nat ensures !Live(t, f) { assert !Live(s, f); }
    assert forall f: nat :: InPhase(s, f, Running) ==> Live(s, f);
  }

  lemma {:induction false} QuietForever(s: State, ls: seq<Label>, t: State)
    requires Safe(s) && Quiet(s) && Reaches(s, ls, t)
    ensures t.log == s.log
    decreases |ls|
  {
    if ls != [] {
      StepKeeps(s, ls[0]);
      QuietStep(s, ls[0]);
      QuietForever(Do(s, ls[0]), ls[1..], t);
    }
  }

  /** When the Close that set the flag has returned, nothing is sent ever after. */
  lemma NothingSentAfterFirstClose(ls: seq<Label>, s: State, c: nat, more: seq<Label>, t: State)
    requires Reaches(Start, ls, s) && c in s.closes && s.closes[c] == Returned(true) && Reaches(s, more, t)
    ensures t.log == s.log
  {
    RunKeeps(Start, ls, s);
    assert First(s, c);
    forall f: nat ensures !Live(s, f) {
      assert forall d :: Awaited(s, d, f) ==> First(s, d);
    }
    QuietForever(s, more, t);
  }

  predicate MaySend(s: State, f: nat) { InPhase(s, f, Registered) || InPhase(s, f, Running) }

  ghost predicate SendsLater(s: State) {
    exists more, t :: Reaches(s, more, t) && t.log != s.log
  }

  lemma MuteStep(s: State, l: Label)
    requires s.t.closed && (forall f: nat :: !MaySend(s, f)) && Enabled(s, l)
    ensures Do(s, l).t.closed && (forall f: nat :: !MaySend(Do(s, l), f)) && Do(s, l).log == s.log
  {
    var t := Do(s, l);
    forall f: nat
      ensures !MaySend(t, f)
    {
      assert !MaySend(s, f);
    }
    assert forall f: nat :: InPhase(s, f, Running) ==> MaySend(s, f);
  }

  lemma {:induction false} MuteForever(s: State, ls: seq<Label>, t: State)
    requires s.t.closed && (forall f: nat :: !MaySend(s, f)) && Reaches(s, ls, t)
    ensures t.log == s.log
    decreases |ls|
  {
    if ls != [] {
      MuteStep(s, ls[0]);
      MuteForever(Do(s, ls[0]), ls[1..], t);
    }
  }

  lemma RunningSends(s: State, f: nat)
    requires InPhase(s, f, Running)
    ensures exists t :: Reaches(s, [Deliver(f, s.fwds[f].epoch)], t) && t.log != s.log
  {
    var d := Deliver(f, s.fwds[f].epoch);
    var t := Do(s, d);
    assert [d][1..] == [] && Reaches(t, [], t) && Reaches(s, [d], t);
    assert t.log == s.log + [Sent(f, s.fwds[f].epoch)];
  }

  lemma RegisteredSends(s: State, f: nat)
    requires InPhase(s, f, Registered)
    ensures exists ls, t :: Reaches(s, ls, t) && t.log != s.log
  {
    var b := Bind(f, "");
    var m := Do(s, b);
    RunningSends(m, f);
    var d := Deliver(f, m.fwds[f].epoch);
    var t :| Reaches(m, [d], t) && t.log != m.log;
    assert [b, d][1..] == [d] && Reaches(s, [b, d], t);
  }

  /** Exactly when something is still sent after the flag is set, whichever Close has
      returned: a forwarder is bound and running, or registered and about to bind. */
  lemma SentAfterCloseExactly(s: State)
    requires s.t.closed
    ensures SendsLater(s) <==> exists f: nat :: MaySend(s, f)
  {
    if f: nat :| MaySend(s, f) {
      if InPhase(s, f, Running) { RunningSends(s, f); } else { RegisteredSends(s, f); }
    } else {
      forall more, t | Reaches(s, more, t)
        ensures t.log == s.log
      {
        MuteForever(s, more, t);
      }
    }
  }

  /** A second, concurrent Close returns at once while forwarders still run, so
      the same claim about it is false: a snapshot is sent after it returned. */
  lemma SecondCloseReturnsEarly(sid: Sid, e: Epoch)
    ensures var ls := [Ensure(sid), Bind(0, e), CloseStart(0), CloseStart(1)];
      exists s, t :: Reaches(Start, ls, s) && s.closes == map[0 := Joining({0}), 1 := Returned(false)]
                     && Reaches(s, [Deliver(0, e)], t) && t.log == s.log + [Sent(0, e)]
  {
    var l1, l2, l3, l4 := Ensure(sid), Bind(0, e), CloseStart(0), CloseStart(1);
    var s1 := Do(Start, l1);
    var s2 := Do(s1, l2);
    assert s2.t.forwarders.Values == {0};
    var s3 := Do(s2, l3);
    var s4 := Do(s3, l4);
    assert [l4][1..] == [] && Reaches(s4, [], s4) && Reaches(s3, [l4], s4);
    assert [l3, l4][1..] == [l4] && Reaches(s2, [l3, l4], s4);
    assert [l2, l3, l4][1..] == [l3, l4] && Reaches(s1, [l2, l3, l4], s4);
    assert [l1, l2, l3, l4][1..] == [l2, l3, l4] && Reaches(Start, [l1, l2, l3, l4], s4);
    var d := Deliver(0, e);
    assert [d][1..] == [] && Reaches(Do(s4, d), [], Do(s4, d)) && Reaches(s4, [d], Do(s4, d));
  }

  // -------------------------------------------------------- what does happen

  function SentBy(log: seq<Sent>, f: nat): nat {
    if log == [] then 0 else SentBy(log[..|log| - 1], f) + (if log[|log| - 1].f == f then 1 else 0)
  }

  function Deliveries(ls: seq<Label>, f: nat, epoch: Epoch): nat {
    if ls == [] then 0 else (if ls[0] == Deliver(f, epoch) then 1 else 0) + Deliveries(ls[1..], f, epoch)
  }

  predicate Bound(s: State, f: nat, epoch: Epoch) { f < |s.fwds| && !s.fwds[f].phase.Registered? && s.fwds[f].epoch == epoch }

  lemma BoundStep(s: State, l: Label, f: nat, epoch: Epoch)
    requires Enabled(s, l) && Bound(s, f, epoch)
    ensures Bound(Do(s, l), f, epoch)
    ensures SentBy(Do(s, l).log, f) == SentBy(s.log, f) + if l == Deliver(f, epoch) then 1 else 0
  {
    var t := Do(s, l);
    assert t.log != s.log ==> t.log[..|t.log| - 1] == s.log;
  }

  /** Over every run a bound forwarder sends each delivery of its own epoch and no other. */
  lemma {:induction false} SendsItsEpoch(s: State, ls: seq<Label>, t: State, f: nat, epoch: Epoch)
    requires Reaches(s, ls, t) && Bound(s, f, epoch)
    ensures SentBy(t.log, f) == SentBy(s.log, f) + Deliveries(ls, f, epoch)
    decreases |ls|
  {
    if ls != [] {
      BoundStep(s, ls[0], f, epoch);
      SendsItsEpoch(Do(s, ls[0]), ls[1..], t, f, epoch);
    }
  }

  /** A request to forward a session registers a forwarder if and only if the controller is
      open and lists none for it; so does a rebind that found its session replaced. */
  lemma RegistersExactly(before: seq<Label>, s: State, l: Label, sid: Sid)
    requires Reaches(Start, before, s) && Enabled(s, l)
    requires l == Ensure(sid) || (l.Rebind? && s.fwds[l.f].sid == sid)
    ensures var t := Do(s, l);
      && (|t.fwds| > |s.fwds| <==> !s.t.closed && sid !in s.t.forwarders && (l.Rebind? ==> l.replaced))
      && (|t.fwds| > |s.fwds| ==> t.fwds[|s.fwds|] == Forwarder(sid, Registered, "", 0) && t.t.forwarders == s.t.forwarders[sid := |s.fwds|])
  {
    SawRun(Start, before, s);
    assert l.Rebind? && s.fwds[l.f].phase.sawClosed ==> s.t.closed;
  }

  /** A forwarder that found the controller closed on its way out was right. */
  ghost predicate Saw(s: State) {
    && (forall f: nat :: f < |s.fwds| ==> match s.fwds[f].phase
          case Unlisted(sawClosed) => sawClosed ==> s.t.closed
          case Done(sawClosed) => sawClosed ==> s.t.closed
          case _ => true)
    && (forall c: nat, f: nat :: Awaited(s, c, f) ==> f < |s.fwds|)
  }

  lemma SawStep(s: State, l: Label)
    requires Safe(s) && Saw(s) && Enabled(s, l)
    ensures Saw(Do(s, l))
  {
    var t := Do(s, l);
    forall c: nat, f: nat | Awaited(t, c, f)
      ensures f < |t.fwds|
    {
      assert Awaited(s, c, f) || f in s.t.forwarders.Values;
    }
  }

  lemma {:induction false} SawRun(s: State, ls: seq<Label>, t: State)
    requires Safe(s) && Saw(s) && Reaches(s, ls, t)
    ensures Safe(t) && Saw(t)
    decreases |ls|
  {
    if ls != [] {
      StepKeeps(s, ls[0]);
      SawStep(s, ls[0]);
      SawRun(Do(s, ls[0]), ls[1..], t);
    }
  }

  /** A forwarder's own next step towards its end. */
  function Onward(s: State, f: nat): Label
    requires f < |s.fwds|
  {
    match s.fwds[f].phase
    case Registered => Bind(f, "")
    case Running => Leave(f)
    case Leaving => Retire(f)
    case _ => CloseDone(f)
  }

  function Ahead(p: Phase): nat {
    match p case Registered => 4 case Running => 3 case Leaving => 2 case Unlisted(_) => 1 case _ => 0
  }

  /** By its own steps any forwarder reaches its end, whatever it was doing. */
  lemma {:induction false} ForwarderEnds(s: State, f: nat) returns (ls: seq<Label>, t: State)
    requires Safe(s) && Saw(s) && f < |s.fwds|
    ensures Reaches(s, ls, t) && Safe(t) && Saw(t) && t.closes == s.closes && |t.fwds| == |s.fwds| && t.fwds[f].dones >= 1
    decreases Ahead(s.fwds[f].phase)
  {
    if Ahead(s.fwds[f].phase) == 0 {
      return [], s;
    }
    var l := Onward(s, f);
    StepKeeps(s, l);
    SawStep(s, l);
    ls, t := ForwarderEnds(Do(s, l), f);
    assert ([l] + ls)[1..] == ls;
    ls := [l] + ls;
  }

  lemma {:induction false} Joined(s: State, ls: seq<Label>, m: State, rest: seq<Label>, t: State)
    requires Reaches(s, ls, m) && Reaches(m, rest, t)
    ensures Reaches(s, ls + rest, t)
    decreases |ls|
  {
    if ls == [] {
      assert ls + rest == rest;
    } else {
      Joined(Do(s, ls[0]), ls[1..], m, rest, t);
      assert (ls + rest)[1..] == ls[1..] + rest;
    }
  }

  /** No Close that waits ever hangs on the protocol: from every reachable state the
      forwarders' own steps let it return. */
  lemma {:induction false} CloseCompletes(before: seq<Label>, s: State, c: nat) returns (ls: seq<Label>, t: State)
    requires Reaches(Start, before, s) && c in s.closes && s.closes[c].Joining?
    ensures Reaches(s, ls, t) && c in t.closes && t.closes[c] == Returned(true)
  {
    SawRun(Start, before, s);
    ls, t := JoinsAll(s, c);
  }

  lemma {:induction false} JoinsAll(s: State, c: nat) returns (ls: seq<Label>, t: State)
    requires Safe(s) && Saw(s) && c in s.closes && s.closes[c].Joining?
    ensures Reaches(s, ls, t) && c in t.closes && t.closes[c] == Returned(true)
    decreases |s.closes[c].pending|
  {
    if s.closes[c].pending == {} {
      ls, t := [CloseReturn(c)], Do(s, CloseReturn(c));
      assert [CloseReturn(c)][1..] == [] && Reaches(t, [], t);
    } else {
      var f :| f in s.closes[c].pending;
      assert Awaited(s, c, f);
      var first, m := ForwarderEnds(s, f);
      var j := Join(c, f);
      StepKeeps(m, j);
      SawStep(m, j);
      var rest;
      rest, t := JoinsAll(Do(m, j), c);
      assert ([j] + rest)[1..] == rest;
      Joined(s, first, m, [j] + rest, t);
      ls := first + ([j] + rest);
    }
  }

  // --------------------------------------------------------------- the object

  class WorkManager {
    var closed: bool
    var forwarders: map<Sid, nat>
    var registered: nat   // forwarders ever registered; the next one's number

    constructor ()
      ensures View() == Start.t && registered == 0
    {
      closed, forwarders, registered := false, map[], 0;
    }

    ghost function View(): Table
      reads this
    {
      Table(closed, forwarders)
    }

    /** ensureWorkForwarder, under the mutex. */
    method Ensure(sid: Sid) returns (f: Option<nat>)
      modifies this
      ensures View() == Ensured(old(View()), sid, old(registered))
      ensures f == if !old(closed) && sid !in old(forwarders) then Some(old(registered)) else None
      ensures forwarders == if f.Some? then old(forwarders)[sid := old(registered)] else old(forwarders)
      ensures registered == old(registered) + if f.Some? then 1 else 0
    {
      if closed {
        return None;
      }
      if sid in forwarders {
        return None;
      }
      f := Some(registered);
      forwarders := forwarders[sid := registered];
      registered := registered + 1;
    }

    /** retireWorkForwarder, under the mutex: delete only its own entry. */
    method Retire(sid: Sid, f: nat) returns (sawClosed: bool)
      modifies this`forwarders
      ensures View() == Retired(old(View()), sid, f) && sawClosed == closed
      ensures forwarders == if sid in old(forwarders) && old(forwarders)[sid] == f then old(forwarders) - {sid} else old(forwarders)
    {
      if sid in forwarders && forwarders[sid] == f {
        forwarders := forwarders - {sid};
      }
      sawClosed := closed;
    }

    /** Close, under the mutex: take every forwarder, or nothing when closed. */
    method CloseStart() returns (first: bool, pending: seq<nat>)
      modifies this
      ensures first == !old(closed) && closed
      ensures first ==> View() == Shut(old(View())) && forwarders == map[] && forall f :: f in pending <==> f in old(forwarders).Values
      ensures !first ==> View() == old(View()) && pending == []
    {
      pending := [];
      if closed {
        return false, [];
      }
      closed, first := true, true;
      while forwarders != map[]
        invariant closed && forwarders.Keys <= old(forwarders).Keys && first
        invariant forall sid :: sid in forwarders ==> forwarders[sid] == old(forwarders)[sid]
        invariant forall sid :: sid in old(forwarders) ==> sid in forwarders || old(forwarders)[sid] in pending
        invariant forall f :: f in pending ==> f in old(forwarders).Values
        decreases |forwarders.Keys|
      {
        var sid :| sid in forwarders;
        pending := pending + [forwarders[sid]];
        forwarders := forwarders - {sid};
      }
    }
  }
}
