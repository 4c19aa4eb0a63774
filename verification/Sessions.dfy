/** Session runtimes (internal/acp/session.go).

    The manager maps session ids to runtimes.  Create, Load, Resume, Close,
    Delete and CloseAll race to start, publish, detach and close runtimes; every
    runtime must end in exactly one place.  The protocol lets lifecycle calls
    interleave at every point where the sessions lock is free, including points
    the source's lifecycle lock forbids, so its theorems cover more runs than the
    source has. */
module Sessions {
  import opened Common

  type Sid = string

  /** A runtime pointer and the session id it was started under. */
  datatype Runtime = Runtime(ptr: nat, id: Sid)

  /** The manager's maps, and the closer calls it has made, in order. */
  datatype Table = Table(sessions: map<Sid, Runtime>, once: set<Runtime>, closed: seq<Runtime>)

  function Detached(t: Table, id: Sid): Table {
    t.(sessions := t.sessions - {id})
  }

  predicate IsPublished(t: Table, rt: Runtime) {
    rt.id in t.sessions && t.sessions[rt.id] == rt
  }

  function Published(t: Table, rt: Runtime): Table {
    t.(sessions := t.sessions[rt.id := rt])
  }

  /** closeRuntimeOnce: the closer runs for the first caller only. */
  function ClosedOnce(t: Table, rt: Runtime): Table {
    if rt in t.once then t else t.(once := t.once + {rt}, closed := t.closed + [rt])
  }

  function ClosedEach(t: Table, order: seq<Runtime>): Table {
    if order == [] then t else ClosedOnce(ClosedEach(t, order[..|order| - 1]), order[|order| - 1])
  }

  /** Closing a list of runtimes runs the closer exactly once for each of them that
      was never closed before, however often the list repeats it. */
  lemma {:induction false} EachClosedOnce(t: Table, order: seq<Runtime>, rt: Runtime)
    ensures ClosedEach(t, order).sessions == t.sessions
    ensures rt in ClosedEach(t, order).once <==> rt in t.once || rt in order
    ensures Closes(ClosedEach(t, order).closed, rt) == Closes(t.closed, rt) + if rt in order && rt !in t.once then 1 else 0
  {
    if order != [] {
      EachClosedOnce(t, order[..|order| - 1], rt);
      assert order == order[..|order| - 1] + [order[|order| - 1]];
    }
  }

  function Closes(closed: seq<Runtime>, rt: Runtime): nat { multiset(closed)[rt] }

  // ------------------------------------------------------------- the protocol

  /** What one in-flight lifecycle call holds.  A retiring call closes runtimes it
      took out of the map and may then replay the one it published. */
  datatype Call = Holding(rt: Runtime) | Retiring(rts: set<Runtime>, after: Option<Runtime>) | Replaying(rt: Runtime)

  datatype State = State(t: Table, calls: map<nat, Call>, started: set<Runtime>, next: nat)

  const Fresh := State(Table(map[], {}, []), map[], {}, 0)

  datatype Label =
    | Start(c: nat, id: Sid)          // StartRuntime returned a fresh runtime
    | Abort(c: nat)                   // Create: policy or isolation failed
    | Publish(c: nat, replay: bool)   // publishReplacement, up to its unlock
    | Detach(c: nat, id: Sid)         // Close and replaceExisting
    | Sweep(c: nat)                   // CloseAll takes the whole map
    | CloseOne(c: nat, rt: Runtime)   // closeRuntimeOnce on a runtime it took
    | Finish(c: nat)
    | ReplayEnds(c: nat)
    | ReplayFails(c: nat)             // teardownIfStillCurrent

  predicate Enabled(s: State, l: Label) {
    match l
    case Start(c, _) => c !in s.calls
    case Abort(c) => c in s.calls && s.calls[c].Holding?
    case Publish(c, _) => c in s.calls && s.calls[c].Holding?
    case Detach(c, id) => c !in s.calls && id in s.t.sessions
    case Sweep(c) => c !in s.calls
    case CloseOne(c, rt) => c in s.calls && s.calls[c].Retiring? && rt in s.calls[c].rts
    case Finish(c) => c in s.calls && s.calls[c].Retiring? && s.calls[c].rts == {}
    case ReplayEnds(c) => c in s.calls && s.calls[c].Replaying?
    case ReplayFails(c) => c in s.calls && s.calls[c].Replaying?
  }

  function Do(s: State, l: Label): State
    requires Enabled(s, l)
  {
    match l
    case Start(c, id) =>
      var rt := Runtime(s.next, id);
      s.(calls := s.calls[c := Holding(rt)], started := s.started + {rt}, next := s.next + 1)
    case Abort(c) => s.(calls := s.calls[c := Retiring({s.calls[c].rt}, None)])
    case Publish(c, replay) =>
      var rt := s.calls[c].rt;
      var prior := if rt.id in s.t.sessions && s.t.sessions[rt.id] != rt then {s.t.sessions[rt.id]} else {};
      s.(t := Published(s.t, rt), calls := s.calls[c := Retiring(prior, if replay then Some(rt) else None)])
    case Detach(c, id) => s.(t := Detached(s.t, id), calls := s.calls[c := Retiring({s.t.sessions[id]}, None)])
    case Sweep(c) => s.(t := s.t.(sessions := map[]), calls := s.calls[c := Retiring(s.t.sessions.Values, None)])
    case CloseOne(c, rt) => s.(t := ClosedOnce(s.t, rt), calls := s.calls[c := s.calls[c].(rts := s.calls[c].rts - {rt})])
    case Finish(c) =>
      s.(calls := if s.calls[c].after.Some? then s.calls[c := Replaying(s.calls[c].after.value)] else s.calls - {c})
    case ReplayEnds(c) => s.(calls := s.calls - {c})
    case ReplayFails(c) =>
      var rt := s.calls[c].rt;
      if IsPublished(s.t, rt) then s.(t := Detached(s.t, rt.id), calls := s.calls[c := Retiring({rt}, None)])
      else s.(calls := s.calls - {c})
  }

  ghost predicate Reaches(s: State, ls: seq<Label>, t: State)
    decreases |ls|
  {
    if ls == [] then s == t else Enabled(s, ls[0]) && Reaches(Do(s, ls[0]), ls[1..], t)
  }

  // ------------------------------------------------------------- conservation

  predicate HeldBy(s: State, c: nat, rt: Runtime) {
    c in s.calls && (s.calls[c] == Holding(rt) || (s.calls[c].Retiring? && rt in s.calls[c].rts))
  }

  ghost predicate Held(s: State, rt: Runtime) { exists c :: HeldBy(s, c, rt) }

  predicate Handed(s: State, rt: Runtime) { rt in s.t.once }

  /** Exactly one of: held by one call, published under its own id, closed once. */
  ghost predicate InOnePlace(s: State, rt: Runtime) {
    && (forall c, d :: HeldBy(s, c, rt) && HeldBy(s, d, rt) ==> c == d)
    && (Held(s, rt) ==> !IsPublished(s.t, rt) && !Handed(s, rt))
    && (IsPublished(s.t, rt) ==> !Handed(s, rt))
    && (Held(s, rt) || IsPublished(s.t, rt) || Handed(s, rt))
    && Closes(s.t.closed, rt) == (if Handed(s, rt) then 1 else 0)
  }

  ghost predicate Book(s: State) {
    && (forall rt :: rt in s.started ==> rt.ptr < s.next)
    && (forall id :: id in s.t.sessions ==> s.t.sessions[id].id == id && s.t.sessions[id] in s.started)
    && (forall c, rt :: HeldBy(s, c, rt) ==> rt in s.started)
    && s.t.once <= s.started
    && (forall rt :: rt in s.t.closed ==> rt in s.started)
  }

  ghost predicate Conserved(s: State) {
    Book(s) && forall rt :: rt in s.started ==> InOnePlace(s, rt)
  }

  lemma BookKeeps(s: State, l: Label)
    requires Book(s) && Enabled(s, l)
    ensures Book(Do(s, l))
  {
    var t := Do(s, l);
    forall c, rt | HeldBy(t, c, rt) ensures rt in t.started {
      if HeldBy(s, c, rt) {
      } else if l.Publish? {
        assert rt.id in s.t.sessions || HeldBy(s, c, rt);
      }
    }
    if l.CloseOne? { assert HeldBy(s, l.c, l.rt); }
    if l.Publish? { assert HeldBy(s, l.c, s.calls[l.c].rt); }
  }

  /** A step changes who holds a runtime only for the call it belongs to. */
  lemma HoldersStep(s: State, l: Label, c: nat, rt: Runtime)
    requires Enabled(s, l) && c != l.c
    ensures HeldBy(Do(s, l), c, rt) <==> HeldBy(s, c, rt)
  {
  }

  lemma NewRuntimePlaced(s: State, l: Label, rt: Runtime)
    requires Conserved(s) && Enabled(s, l) && l.Start? && rt == Runtime(s.next, l.id)
    ensures InOnePlace(Do(s, l), rt)
  {
    var t := Do(s, l);
    assert rt !in s.started;
    assert HeldBy(t, l.c, rt);
    forall c | HeldBy(t, c, rt) ensures c == l.c {
      if c != l.c { HoldersStep(s, l, c, rt); }
    }
    assert rt !in s.t.closed && !IsPublished(s.t, rt);
    assert Closes(s.t.closed, rt) == 0;
  }

  /** Where a runtime goes when the moving call neither held nor takes it. */
  lemma PlaceUntouched(s: State, l: Label, rt: Runtime)
    requires Conserved(s) && Enabled(s, l) && rt in s.started
    requires !HeldBy(s, l.c, rt) && !HeldBy(Do(s, l), l.c, rt)
    ensures InOnePlace(Do(s, l), rt)
  {
    var t := Do(s, l);
    assert InOnePlace(s, rt);
    forall c ensures HeldBy(t, c, rt) <==> HeldBy(s, c, rt) {
      if c != l.c { HoldersStep(s, l, c, rt); }
    }
    assert IsPublished(s.t, rt) ==> rt in s.t.sessions.Values;
    assert l.CloseOne? ==> HeldBy(s, l.c, l.rt);
  }

  /** A call takes a runtime it did not hold only out of the map. */
  lemma MovedFromMap(s: State, l: Label, rt: Runtime)
    requires Book(s) && Enabled(s, l) && rt in s.started
    requires !HeldBy(s, l.c, rt) && HeldBy(Do(s, l), l.c, rt)
    ensures IsPublished(s.t, rt)
  {
  }

  /** Where a runtime goes when the moving call held it or takes it. */
  lemma PlaceMoved(s: State, l: Label, rt: Runtime)
    requires Conserved(s) && Enabled(s, l) && rt in s.started
    requires HeldBy(s, l.c, rt) || HeldBy(Do(s, l), l.c, rt)
    ensures InOnePlace(Do(s, l), rt)
  {
    var t := Do(s, l);
    assert InOnePlace(s, rt);
    if !HeldBy(s, l.c, rt) { MovedFromMap(s, l, rt); }
    forall c | c != l.c ensures !HeldBy(t, c, rt) {
      HoldersStep(s, l, c, rt);
      assert HeldBy(s, c, rt) ==> Held(s, rt);
    }
    assert HeldBy(s, l.c, rt) ==> Held(s, rt);
    assert HeldBy(t, l.c, rt) ==> Held(t, rt);
    assert !HeldBy(t, l.c, rt) ==> !Held(t, rt);
  }

  lemma StepKeeps(s: State, l: Label)
    requires Conserved(s) && Enabled(s, l)
    ensures Conserved(Do(s, l))
  {
    BookKeeps(s, l);
    forall rt | rt in Do(s, l).started ensures InOnePlace(Do(s, l), rt) {
      if rt !in s.started {
        NewRuntimePlaced(s, l, rt);
      } else if HeldBy(s, l.c, rt) || HeldBy(Do(s, l), l.c, rt) {
        PlaceMoved(s, l, rt);
      } else {
        PlaceUntouched(s, l, rt);
      }
    }
  }

  /** Conservation: in every interleaving each started runtime is held by a single
      call, published under its own id, or closed exactly once. */
  lemma {:induction false} RunKeeps(s: State, ls: seq<Label>, t: State)
    requires Conserved(s) && Reaches(s, ls, t)
    ensures Conserved(t)
    decreases |ls|
  {
    if ls != [] {
      StepKeeps(s, ls[0]);
      RunKeeps(Do(s, ls[0]), ls[1..], t);
    }
  }

  /** The closer never runs on a published runtime and never twice: the once guard
      is not needed while the starter returns fresh runtimes. */
  lemma CloserIsSafe(ls: seq<Label>, s: State, l: Label)
    requires Reaches(Fresh, ls, s) && Enabled(s, l) && l.CloseOne?
    ensures !IsPublished(s.t, l.rt) && l.rt !in s.t.once
    ensures Do(s, l).t.closed == s.t.closed + [l.rt]
  {
    RunKeeps(Fresh, ls, s);
    assert HeldBy(s, l.c, l.rt);
    assert InOnePlace(s, l.rt);
  }

  /** The steps that take a runtime out of the map: a close or delete of its id, CloseAll,
      a later publication under its id, or the failing replay of its own load. */
  predicate Unpublishes(s: State, l: Label, rt: Runtime) {
    match l
    case Detach(_, id) => id == rt.id
    case Sweep(_) => true
    case Publish(c, _) => c in s.calls && s.calls[c].Holding? && s.calls[c].rt.id == rt.id && s.calls[c].rt != rt
    case ReplayFails(c) => c in s.calls && s.calls[c].Replaying? && s.calls[c].rt == rt
    case _ => false
  }

  /** A published runtime leaves the map by such a step and by no other; a successful
      replay, in particular, leaves it published. */
  lemma LeavesMapExactly(s: State, l: Label, rt: Runtime)
    requires Book(s) && Enabled(s, l) && IsPublished(s.t, rt)
    ensures IsPublished(Do(s, l).t, rt) <==> !Unpublishes(s, l, rt)
  {
    if l.ReplayFails? && s.calls[l.c].rt != rt && s.calls[l.c].rt.id == rt.id { assert !IsPublished(s.t, s.calls[l.c].rt); }
  }

  ghost predicate Left(s: State, ls: seq<Label>, rt: Runtime)
    decreases |ls|
  {
    ls != [] && Enabled(s, ls[0]) && (Unpublishes(s, ls[0], rt) || Left(Do(s, ls[0]), ls[1..], rt))
  }

  /** So over every run: what was published still is unless such a step came. */
  lemma {:induction false} StaysPublished(s: State, ls: seq<Label>, t: State, rt: Runtime)
    requires Conserved(s) && Reaches(s, ls, t) && IsPublished(s.t, rt) && !Left(s, ls, rt)
    ensures IsPublished(t.t, rt)
    decreases |ls|
  {
    if ls != [] {
      LeavesMapExactly(s, ls[0], rt);
      StepKeeps(s, ls[0]);
      StaysPublished(Do(s, ls[0]), ls[1..], t, rt);
    }
  }

  lemma One(s: State, l: Label)
    requires Enabled(s, l)
    ensures Reaches(s, [l], Do(s, l))
  {
    assert [l][1..] == [] && Reaches(Do(s, l), [], Do(s, l));
  }

  lemma First(s: State, l: Label, rest: seq<Label>, t: State)
    requires Enabled(s, l) && Reaches(Do(s, l), rest, t)
    ensures Reaches(s, [l] + rest, t)
  {
    assert ([l] + rest)[1..] == rest;
  }

  function Taken(rt: Option<Runtime>): set<Runtime> { if rt.Some? then {rt.value} else {} }

  /** The steps of a call that took at most one runtime: close it, then finish. */
  function Retirement(c: nat, rt: Option<Runtime>): seq<Label> {
    if rt.Some? then [CloseOne(c, rt.value)] + [Finish(c)] else [Finish(c)]
  }

  function Retired(s: State, c: nat, rt: Option<Runtime>, after: Option<Runtime>): State {
    s.(t := if rt.Some? then ClosedOnce(s.t, rt.value) else s.t,
       calls := if after.Some? then s.calls[c := Replaying(after.value)] else s.calls - {c})
  }

  lemma Retires(s: State, c: nat, rt: Option<Runtime>, after: Option<Runtime>)
    requires c in s.calls && s.calls[c] == Retiring(Taken(rt), after)
    ensures Reaches(s, Retirement(c, rt), Retired(s, c, rt, after))
  {
    if rt.Some? {
      var m := Do(s, CloseOne(c, rt.value));
      assert Taken(rt) - {rt.value} == {};
      assert m.calls == s.calls[c := Retiring({}, after)];
      assert Do(m, Finish(c)).calls == Retired(s, c, rt, after).calls;
      One(m, Finish(c));
      First(s, CloseOne(c, rt.value), [Finish(c)], Do(m, Finish(c)));
    } else {
      One(s, Finish(c));
    }
  }

  /** Whom a publication of rt replaces. */
  function Prior(t: Table, rt: Runtime): Option<Runtime> {
    if rt.id in t.sessions && t.sessions[rt.id] != rt then Some(t.sessions[rt.id]) else None
  }

  /** A create or load goes through from any state in which it holds its runtime: the
      runtime is published, the one it replaced is closed, and the call is over, or, for a
      load, about to replay. */
  lemma Publishes(s: State, c: nat, replay: bool) returns (t: State)
    requires c in s.calls && s.calls[c].Holding?
    ensures var rt := s.calls[c].rt;
      && Reaches(s, [Publish(c, replay)] + Retirement(c, Prior(s.t, rt)), t)
      && IsPublished(t.t, rt) && (Prior(s.t, rt).Some? ==> Handed(t, Prior(s.t, rt).value))
      && (if replay then c in t.calls && t.calls[c] == Replaying(rt) else c !in t.calls)
  {
    var rt := s.calls[c].rt;
    var after := if replay then Some(rt) else None;
    var p := Do(s, Publish(c, replay));
    Retires(p, c, Prior(s.t, rt), after);
    t := Retired(p, c, Prior(s.t, rt), after);
    First(s, Publish(c, replay), Retirement(c, Prior(s.t, rt)), t);
  }

  /** A replay that succeeds leaves the map alone; one that fails takes its own runtime out,
      if it is still there, and closes it. */
  lemma ReplayEnding(s: State, c: nat, ok: bool) returns (t: State)
    requires c in s.calls && s.calls[c].Replaying?
    ensures var rt := s.calls[c].rt;
      var ls := if ok then [ReplayEnds(c)] else if IsPublished(s.t, rt) then [ReplayFails(c)] + Retirement(c, Some(rt)) else [ReplayFails(c)];
      && Reaches(s, ls, t) && c !in t.calls
      && t.t == if !ok && IsPublished(s.t, rt) then ClosedOnce(Detached(s.t, rt.id), rt) else s.t
  {
    var rt := s.calls[c].rt;
    if ok {
      One(s, ReplayEnds(c));
      t := Do(s, ReplayEnds(c));
    } else if IsPublished(s.t, rt) {
      var f := Do(s, ReplayFails(c));
      Retires(f, c, Some(rt), None);
      t := Retired(f, c, Some(rt), None);
      First(s, ReplayFails(c), Retirement(c, Some(rt)), t);
    } else {
      One(s, ReplayFails(c));
      t := Do(s, ReplayFails(c));
    }
  }

  /** A close or delete of a published session goes through whatever else is in flight, and
      so does giving up a runtime that was never published. */
  lemma ClosesAny(s: State, c: nat, id: Sid) returns (t: State)
    requires if c in s.calls then s.calls[c].Holding? else id in s.t.sessions
    ensures var rt, l := (if c in s.calls then s.calls[c].rt else s.t.sessions[id]), (if c in s.calls then Abort(c) else Detach(c, id));
      && Reaches(s, [l] + Retirement(c, Some(rt)), t) && c !in t.calls
      && t.t == ClosedOnce(if c in s.calls then s.t else Detached(s.t, id), rt)
  {
    var rt, l := (if c in s.calls then s.calls[c].rt else s.t.sessions[id]), (if c in s.calls then Abort(c) else Detach(c, id));
    var d := Do(s, l);
    Retires(d, c, Some(rt), None);
    t := Retired(d, c, Some(rt), None);
    First(s, l, Retirement(c, Some(rt)), t);
  }

  /** Nothing leaks: once no call is in flight, every started runtime is published
      or has been closed exactly once; after a CloseAll that ran alone, closed. */
  lemma NothingLeaks(ls: seq<Label>, s: State, rt: Runtime)
    requires Reaches(Fresh, ls, s) && s.calls == map[] && rt in s.started
    ensures IsPublished(s.t, rt) <==> Closes(s.t.closed, rt) == 0
    ensures s.t.sessions == map[] ==> Closes(s.t.closed, rt) == 1
  {
    RunKeeps(Fresh, ls, s);
    assert InOnePlace(s, rt);
    assert !Held(s, rt);
  }

  // --------------------------------------------------------------- the object

  /** What the manager calls outside itself, in order: a session's turn canceller and a
      runtime's closer. */
  datatype Event = TurnCancel(id: Sid) | Closer(rt: Runtime)

  function Closers(log: seq<Event>): seq<Runtime> {
    if log == [] then []
    else Closers(log[..|log| - 1]) + (match log[|log| - 1] { case Closer(rt) => [rt] case TurnCancel(_) => [] })
  }

  lemma ClosersStep(log: seq<Event>, e: Event)
    ensures Closers(log + [e]) == Closers(log) + (match e { case Closer(rt) => [rt] case TurnCancel(_) => [] })
  {
    assert (log + [e])[..|log|] == log;
  }

  /** The calls a teardown of these sessions makes: each turn cancelled, then its runtime
      closed unless it was closed before. */
  function Teardown(once: set<Runtime>, taken: map<Sid, Runtime>, ids: seq<Sid>): seq<Event>
    requires forall k :: k in ids ==> k in taken
  {
    if ids == [] then []
    else
      var n, rt := |ids| - 1, taken[ids[|ids| - 1]];
      Teardown(once, taken, ids[..n]) + [TurnCancel(ids[n])]
      + (if rt in once || rt in Runtimes(taken, ids[..n]) then [] else [Closer(rt)])
  }

  function Runtimes(taken: map<Sid, Runtime>, ids: seq<Sid>): seq<Runtime>
    requires forall k :: k in ids ==> k in taken
  {
    if ids == [] then [] else Runtimes(taken, ids[..|ids| - 1]) + [taken[ids[|ids| - 1]]]
  }

  lemma {:induction false} RuntimesAre(taken: map<Sid, Runtime>, ids: seq<Sid>, rt: Runtime)
    requires forall k :: k in ids ==> k in taken
    ensures rt in Runtimes(taken, ids) <==> exists k :: k in ids && taken[k] == rt
  {
    if ids != [] {
      RuntimesAre(taken, ids[..|ids| - 1], rt);
      assert ids == ids[..|ids| - 1] + [ids[|ids| - 1]];
    }
  }

  /** Each closer call follows directly on the cancel of a session it belongs to. */
  predicate CancelsPrecede(taken: map<Sid, Runtime>, log: seq<Event>) {
    forall p :: 0 <= p < |log| && log[p].Closer?
      ==> p > 0 && log[p - 1].TurnCancel? && log[p - 1].id in taken && taken[log[p - 1].id] == log[p].rt
  }

  lemma PrecedeStep(taken: map<Sid, Runtime>, log: seq<Event>, id: Sid, more: seq<Event>)
    requires CancelsPrecede(taken, log) && id in taken && (more == [] || more == [Closer(taken[id])])
    ensures CancelsPrecede(taken, log + [TurnCancel(id)] + more)
  {
  }

  /** Whatever was closed before: in a teardown every closer call is preceded directly by
      the cancel of its session's turn, and every session's turn is cancelled. */
  lemma {:induction false} CancelsFirst(once: set<Runtime>, taken: map<Sid, Runtime>, ids: seq<Sid>, k: Sid)
    requires forall i :: i in ids ==> i in taken
    ensures CancelsPrecede(taken, Teardown(once, taken, ids))
    ensures k in ids ==> TurnCancel(k) in Teardown(once, taken, ids)
  {
    if ids != [] {
      var n := |ids| - 1;
      CancelsFirst(once, taken, ids[..n], k);
      assert ids == ids[..n] + [ids[n]];
      var more := if taken[ids[n]] in once || taken[ids[n]] in Runtimes(taken, ids[..n]) then [] else [Closer(taken[ids[n]])];
      PrecedeStep(taken, Teardown(once, taken, ids[..n]), ids[n], more);
    }
  }

  class SessionManager {
    var sessions: map<Sid, Runtime>
    var once: set<Runtime>
    var log: seq<Event>

    constructor ()
      ensures View() == Fresh.t && log == []
    {
      sessions, once, log := map[], {}, [];
    }

    ghost function View(): Table
      reads this
    {
      Table(sessions, once, Closers(log))
    }

    method CloseRuntimeOnce(rt: Runtime)
      modifies this`once, this`log
      ensures View() == ClosedOnce(old(View()), rt)
      ensures log == old(log) + (if rt in old(once) then [] else [Closer(rt)])
    {
      if rt !in once {
        ClosersStep(log, Closer(rt));
        once := once + {rt};
        log := log + [Closer(rt)];
      }
    }

    method CancelTurn(id: Sid)
      modifies this`log
      ensures View() == old(View()) && log == old(log) + [TurnCancel(id)]
    {
      ClosersStep(log, TurnCancel(id));
      log := log + [TurnCancel(id)];
    }

    method Detach(id: Sid) returns (rt: Option<Runtime>)
      modifies this`sessions
      ensures View() == Detached(old(View()), id)
      ensures rt == if id in old(sessions) then Some(old(sessions)[id]) else None
    {
      if id !in sessions {
        assert sessions - {id} == sessions;
        return None;
      }
      rt := Some(sessions[id]);
      sessions := sessions - {id};
    }

    /** Detach, cancel the turn, then close: the order the source promises. */
    method ReplaceExisting(id: Sid)
      modifies this
      ensures sessions == old(sessions) - {id}
      ensures id !in old(sessions) ==> log == old(log) && once == old(once)
      ensures id in old(sessions) ==> View() == ClosedOnce(Detached(old(View()), id), old(sessions)[id])
      ensures id in old(sessions) ==> log == old(log) + [TurnCancel(id)] + (if old(sessions)[id] in old(once) then [] else [Closer(old(sessions)[id])])
    {
      var rt := Detach(id);
      if rt.Some? {
        CancelTurn(id);
        CloseRuntimeOnce(rt.value);
      }
    }

    /** The new runtime is in the map before the prior one's turn is cancelled and it is
        closed; the same pointer again changes nothing. */
    method PublishReplacement(rt: Runtime)
      modifies this
      ensures sessions == old(sessions)[rt.id := rt]
      ensures var had := rt.id in old(sessions) && old(sessions)[rt.id] != rt;
        && View() == (if had then ClosedOnce(Published(old(View()), rt), old(sessions)[rt.id]) else Published(old(View()), rt))
        && log == old(log) + (if had then [TurnCancel(rt.id)] + (if old(sessions)[rt.id] in old(once) then [] else [Closer(old(sessions)[rt.id])]) else [])
    {
      var had := rt.id in sessions;
      var samePointer := had && sessions[rt.id] == rt;
      if samePointer {
        assert sessions[rt.id := rt] == sessions;
        return;
      }
      var prior := if had then sessions[rt.id] else rt;
      sessions := sessions[rt.id := rt];
      if had {
        CancelTurn(rt.id);
        CloseRuntimeOnce(prior);
      }
    }

    method TeardownIfStillCurrent(rt: Runtime)
      modifies this
      ensures View() == if IsPublished(old(View()), rt) then ClosedOnce(Detached(old(View()), rt.id), rt) else old(View())
      ensures log == old(log) + (if IsPublished(old(View()), rt) && rt !in old(once) then [Closer(rt)] else [])
    {
      if rt.id in sessions && sessions[rt.id] == rt {
        sessions := sessions - {rt.id};
        CloseRuntimeOnce(rt);
      }
    }

    /** One session of CloseAll: its turn cancelled, then its runtime closed. */
    method CloseOne(id: Sid, rt: Runtime)
      modifies this`once, this`log
      ensures View() == ClosedOnce(old(View()), rt)
      ensures log == old(log) + [TurnCancel(id)] + (if rt in old(once) then [] else [Closer(rt)])
    {
      CancelTurn(id);
      CloseRuntimeOnce(rt);
    }

    /** CloseAll: the map is emptied first, then session by session the turn is cancelled
        and the runtime closed, each session exactly once. */
    method CloseAll() returns (ids: seq<Sid>)
      modifies this
      ensures (forall k :: k in ids <==> k in old(sessions)) && forall i, j :: 0 <= i < j < |ids| ==> ids[i] != ids[j]
      ensures View() == ClosedEach(old(View()).(sessions := map[]), Runtimes(old(sessions), ids))
      ensures log == old(log) + Teardown(old(once), old(sessions), ids)
    {
      var taken := sessions;
      ids := Listing(taken.Keys);
      sessions := map[];
      CloseEach(taken, ids);
    }

    method CloseEach(taken: map<Sid, Runtime>, ids: seq<Sid>)
      requires forall k :: k in ids ==> k in taken
      modifies this`once, this`log
      ensures View() == ClosedEach(old(View()), Runtimes(taken, ids))
      ensures log == old(log) + Teardown(old(once), taken, ids)
    {
      ghost var t := View();
      for k := 0 to |ids|
        invariant (View(), log) == TornTo(t, old(log), taken, ids, k)
      {
        CloseOne(ids[k], taken[ids[k]]);
      }
      TornTable(t, old(log), taken, ids, |ids|);
      TornLog(t, old(log), taken, ids, |ids|);
      assert ids[..|ids|] == ids;
    }
  }

  /** The table and the log after the first n sessions are torn down. */
  function TornTo(t: Table, log: seq<Event>, taken: map<Sid, Runtime>, ids: seq<Sid>, n: nat): (Table, seq<Event>)
    requires n <= |ids| && forall k :: k in ids ==> k in taken
  {
    if n == 0 then (t, log)
    else
      var before, rt := TornTo(t, log, taken, ids, n - 1), taken[ids[n - 1]];
      (ClosedOnce(before.0, rt), before.1 + [TurnCancel(ids[n - 1])] + (if rt in before.0.once then [] else [Closer(rt)]))
  }

  lemma AppendTwice(log: seq<Event>, torn: seq<Event>, cancel: seq<Event>, more: seq<Event>)
    ensures log + (torn + cancel + more) == log + torn + cancel + more
  {
  }

  lemma {:induction false} TornTable(t: Table, log: seq<Event>, taken: map<Sid, Runtime>, ids: seq<Sid>, n: nat)
    requires n <= |ids| && forall k :: k in ids ==> k in taken
    ensures TornTo(t, log, taken, ids, n).0 == ClosedEach(t, Runtimes(taken, ids[..n]))
  {
    if n > 0 {
      TornTable(t, log, taken, ids, n - 1);
      assert ids[..n] == ids[..n - 1] + [ids[n - 1]];
      TeardownStep(t, taken, ids[..n - 1], ids[n - 1]);
    }
  }

  lemma {:induction false} TornLog(t: Table, log: seq<Event>, taken: map<Sid, Runtime>, ids: seq<Sid>, n: nat)
    requires n <= |ids| && forall k :: k in ids ==> k in taken
    ensures TornTo(t, log, taken, ids, n).1 == log + Teardown(t.once, taken, ids[..n])
  {
    if n == 0 {
      assert log + [] == log;
    } else {
      var id, before := ids[n - 1], ids[..n - 1];
      TornLog(t, log, taken, ids, n - 1);
      TornTable(t, log, taken, ids, n - 1);
      TeardownStep(t, taken, before, id);
      assert ids[..n] == before + [id];
      AppendTwice(log, Teardown(t.once, taken, before), [TurnCancel(id)],
                  if taken[id] in ClosedEach(t, Runtimes(taken, before)).once then [] else [Closer(taken[id])]);
    }
  }

  /** The ids of the sessions taken, each once. */
  method Listing(keys: set<Sid>) returns (ids: seq<Sid>)
    ensures (forall k :: k in ids <==> k in keys) && forall i, j :: 0 <= i < j < |ids| ==> ids[i] != ids[j]
  {
    var left := keys;
    ids := [];
    while left != {}
      invariant left <= keys && (forall k :: k in ids <==> k in keys && k !in left)
      invariant forall i, j :: 0 <= i < j < |ids| ==> ids[i] != ids[j]
      decreases |left|
    {
      var id :| id in left;
      ids := ids + [id];
      left := left - {id};
    }
  }

  lemma TeardownStep(t: Table, taken: map<Sid, Runtime>, ids: seq<Sid>, id: Sid)
    requires id in taken && forall k :: k in ids ==> k in taken
    ensures Runtimes(taken, ids + [id]) == Runtimes(taken, ids) + [taken[id]]
    ensures ClosedEach(t, Runtimes(taken, ids + [id])) == ClosedOnce(ClosedEach(t, Runtimes(taken, ids)), taken[id])
    ensures taken[id] in ClosedEach(t, Runtimes(taken, ids)).once <==> taken[id] in t.once || taken[id] in Runtimes(taken, ids)
    ensures Teardown(t.once, taken, ids + [id])
         == Teardown(t.once, taken, ids) + [TurnCancel(id)] + (if taken[id] in ClosedEach(t, Runtimes(taken, ids)).once then [] else [Closer(taken[id])])
  {
    assert (ids + [id])[..|ids|] == ids;
    var runs := Runtimes(taken, ids);
    assert (runs + [taken[id]])[..|runs|] == runs;
    EachClosedOnce(t, runs, taken[id]);
  }
}
