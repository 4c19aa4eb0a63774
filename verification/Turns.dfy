/** Turn slots and explicit stops (internal/acp/turn.go, host.go; the stop-group
    registration of internal/app/session/session.go).

    One manager reserves a slot per session, registers the turn's stop group once
    the turn starts, and releases both at the end.  Cancel and CancelAndWait find
    the slot, ask for the stop, then cancel the context.  Reservation, loading the
    slot's group, the session's registration and the release are separate atomic
    steps, so a cancel may interleave with a turn's start and end. */
module Turns {
  import opened Common

  type Sid = string

  /** A session's stop-group registration: the slot whose group is registered and
      whether a stop that came too early is retained. */
  datatype Group = Group(token: Option<nat>, pending: bool)

  /** The groups of every session and the slots whose group was asked to stop. */
  datatype Groups = Groups(of: map<Sid, Group>, stopped: set<nat>)

  function GroupOf(g: Groups, sid: Sid): Group {
    if sid in g.of then g.of[sid] else Group(None, false)
  }

  /** BeginTurnStop: register, adopting a retained stop. */
  function Begun(g: Groups, sid: Sid, slot: nat): Groups {
    Groups(g.of[sid := Group(Some(slot), false)], g.stopped + if GroupOf(g, sid).pending then {slot} else {})
  }

  /** RequestTurnStop: stop the registered group, or retain the request. */
  function Requested(g: Groups, sid: Sid): Groups {
    match GroupOf(g, sid).token
    case Some(slot) => g.(stopped := g.stopped + {slot})
    case None => g.(of := g.of[sid := Group(None, true)])
  }

  /** EndTurnStop: unregister only the caller's own group; nothing is stopped. */
  function Ended(g: Groups, sid: Sid, slot: nat): Groups {
    if GroupOf(g, sid).token == Some(slot) then g.(of := g.of[sid := Group(None, GroupOf(g, sid).pending)]) else g
  }

  function Reserved(active: map<Sid, nat>, sid: Sid, slot: nat): map<Sid, nat> {
    if sid in active then active else active[sid := slot]
  }

  function Released(active: map<Sid, nat>, sid: Sid, slot: nat): map<Sid, nat> {
    if sid in active && active[sid] == slot then active - {sid} else active
  }

  // ------------------------------------------------------------- the protocol

  /** A turn: reserved, its group registered but not yet stored on the slot,
      running, ending, out of the map, unregistered, and done closed. */
  datatype Phase = Holding | Registering | Running | Ending | OutOfMap | Unregistered | Closed

  /** adopted: registration found a retained stop; failed: the turn's own forwarding or a
      client bridge broke, or its request ended; cancelled: its context has ended. */
  datatype Slot = Slot(sid: Sid, phase: Phase, registered: bool, stored: bool, adopted: bool, failed: bool, cancelled: bool, dones: nat)

  /** A Cancel or CancelAndWait that found a slot. */
  datatype Stage = Found | LoadedNil | Asked(strayed: bool) | Cancelled(strayed: bool) | ReturnedOk | TimedOut

  datatype Call = Call(slot: nat, stage: Stage)

  datatype State = State(active: map<Sid, nat>, slots: seq<Slot>, groups: Groups, calls: map<nat, Call>)

  const Start := State(map[], [], Groups(map[], {}), map[])

  datatype Label =
    | Reserve(sid: Sid)
    | RefuseWork(i: nat)        // BeginWork failed: the turn ends at once
    | Register(i: nat)          // BeginTurnStop
    | Store(i: nat)             // slot.stopGroup.Store
    | Fail(i: nat)              // a notification or bridge failed, or the request running the turn ended
    | Finish(i: nat)
    | LeaveMap(i: nat)
    | Unregister(i: nat)        // EndTurnStop
    | CloseDone(i: nat)
    | Find(c: nat, sid: Sid)
    | LoadToken(c: nat)         // and stop the stored group, if there is one
    | AskSession(c: nat)        // RequestTurnStop
    | CancelContext(c: nat)
    | SeeDone(c: nat)
    | TimeOut(c: nat)

  predicate SlotIs(s: State, i: nat, p: Phase) { i < |s.slots| && s.slots[i].phase == p }

  predicate CallIs(s: State, c: nat) { c in s.calls && s.calls[c].slot < |s.slots| }

  predicate Enabled(s: State, l: Label) {
    match l
    case Reserve(_) => true
    case RefuseWork(i) => SlotIs(s, i, Holding)
    case Register(i) => SlotIs(s, i, Holding)
    case Store(i) => SlotIs(s, i, Registering)
    case Fail(i) => Reserving(s, i)
    case Finish(i) => SlotIs(s, i, Running)
    case LeaveMap(i) => SlotIs(s, i, Ending)
    case Unregister(i) => SlotIs(s, i, OutOfMap)
    case CloseDone(i) => SlotIs(s, i, Unregistered)
    case Find(c, sid) => c !in s.calls && sid in s.active
    case LoadToken(c) => CallIs(s, c) && s.calls[c].stage == Found
    case AskSession(c) => CallIs(s, c) && s.calls[c].stage == LoadedNil
    case CancelContext(c) => CallIs(s, c) && s.calls[c].stage.Asked?
    case SeeDone(c) => CallIs(s, c) && s.calls[c].stage.Cancelled? && s.slots[s.calls[c].slot].dones > 0
    case TimeOut(c) => CallIs(s, c) && s.calls[c].stage.Cancelled?
  }

  function Moved(s: State, i: nat, p: Phase): State
    requires i < |s.slots|
  {
    s.(slots := s.slots[i := s.slots[i].(phase := p)])
  }

  function At(s: State, c: nat, stage: Stage): State
    requires c in s.calls
  {
    s.(calls := s.calls[c := s.calls[c].(stage := stage)])
  }

  function Do(s: State, l: Label): State
    requires Enabled(s, l)
  {
    match l
    case Reserve(sid) =>
      if sid in s.active then s
      else s.(active := Reserved(s.active, sid, |s.slots|), slots := s.slots + [Slot(sid, Holding, false, false, false, false, false, 0)])
    case RefuseWork(i) => Moved(s, i, Ending)
    case Register(i) =>
      s.(slots := s.slots[i := s.slots[i].(phase := Registering, registered := true, adopted := GroupOf(s.groups, s.slots[i].sid).pending)],
         groups := Begun(s.groups, s.slots[i].sid, i))
    case Store(i) =>
      // an adopted stop cancels the turn at once, exactly as a late cancel would
      s.(slots := s.slots[i := s.slots[i].(phase := Running, stored := true, cancelled := s.slots[i].cancelled || s.slots[i].adopted)])
    case Fail(i) => s.(slots := s.slots[i := s.slots[i].(failed := true, cancelled := true)])
    case Finish(i) => Moved(s, i, Ending)
    case LeaveMap(i) =>
      // the deferred cleanup cancels the context of every turn before it releases the slot
      s.(slots := s.slots[i := s.slots[i].(phase := OutOfMap, cancelled := true)], active := Released(s.active, s.slots[i].sid, i))
    case Unregister(i) =>
      Moved(s, i, Unregistered).(groups := if s.slots[i].stored then Ended(s.groups, s.slots[i].sid, i) else s.groups)
    case CloseDone(i) => s.(slots := s.slots[i := s.slots[i].(phase := Closed, dones := s.slots[i].dones + 1)])
    case Find(c, sid) => s.(calls := s.calls[c := Call(s.active[sid], Found)])
    case LoadToken(c) =>
      var i := s.calls[c].slot;
      if s.slots[i].stored then At(s, c, Asked(false)).(groups := s.groups.(stopped := s.groups.stopped + {i}))
      else At(s, c, LoadedNil)
    case AskSession(c) =>
      var i := s.calls[c].slot;
      At(s, c, Asked(Strays(s, i))).(groups := Requested(s.groups, s.slots[i].sid))
    case CancelContext(c) =>
      var i := s.calls[c].slot;
      At(s, c, Cancelled(s.calls[c].stage.strayed)).(slots := s.slots[i := s.slots[i].(cancelled := true)])
    case SeeDone(c) => At(s, c, ReturnedOk)
    case TimeOut(c) => At(s, c, TimedOut)
  }

  /** A session-level request for slot i strays when the group registered then is
      another turn's. */
  predicate Strays(s: State, i: nat)
    requires i < |s.slots|
  {
    var token := GroupOf(s.groups, s.slots[i].sid).token;
    token.Some? && token.value != i
  }

  ghost predicate Reaches(s: State, ls: seq<Label>, t: State)
    decreases |ls|
  {
    if ls == [] then s == t else Enabled(s, ls[0]) && Reaches(Do(s, ls[0]), ls[1..], t)
  }

  // ------------------------------------------------------------------- safety

  predicate Over(s: State, i: nat)
    requires i < |s.slots|
  {
    s.slots[i].phase in {Ending, OutOfMap, Unregistered, Closed}
  }

  predicate Reserving(s: State, i: nat) {
    i < |s.slots| && s.slots[i].phase in {Holding, Registering, Running, Ending}
  }

  predicate InMap(s: State, i: nat)
    requires i < |s.slots|
  {
    s.slots[i].sid in s.active && s.active[s.slots[i].sid] == i
  }

  ghost predicate SlotOk(s: State, i: nat)
    requires i < |s.slots|
  {
    var x := s.slots[i];
    && (Reserving(s, i) <==> InMap(s, i))
    && x.dones == (if x.phase.Closed? then 1 else 0)
    && (x.phase.Holding? ==> !x.registered)
    && (x.registered ==> x.stored || x.phase.Registering?)
    && (x.stored ==> x.registered && !x.phase.Registering?)
    && (x.phase in {Registering, Running} ==> x.registered)
    && (x.adopted ==> x.registered)
  }

  ghost predicate Slots(s: State) {
    && (forall i: nat :: i < |s.slots| ==> SlotOk(s, i))
    && (forall sid :: sid in s.active ==> s.active[sid] < |s.slots| && s.slots[s.active[sid]].sid == sid)
  }

  /** A registered group belongs to a turn of its session that has begun and not
      yet unregistered. */
  ghost predicate GroupOk(s: State, sid: Sid) {
    var token := GroupOf(s.groups, sid).token;
    token.Some? ==> !GroupOf(s.groups, sid).pending
                    && token.value < |s.slots| && s.slots[token.value].sid == sid && s.slots[token.value].registered
                    && !(s.slots[token.value].phase in {Unregistered, Closed})
  }

  /** While a turn that has registered runs, its group is the session's. */
  ghost predicate Owns(s: State, i: nat)
    requires i < |s.slots|
  {
    s.slots[i].registered && InMap(s, i) ==> GroupOf(s.groups, s.slots[i].sid).token == Some(i)
  }

  /** The stop reached its turn, waits for it to register, or came too late. */
  predicate Reached(s: State, i: nat)
    requires i < |s.slots|
  {
    i in s.groups.stopped || Over(s, i) || (!s.slots[i].registered && GroupOf(s.groups, s.slots[i].sid).pending)
  }

  ghost predicate CallOk(s: State, c: nat)
    requires c in s.calls
  {
    var x := s.calls[c];
    && x.slot < |s.slots|
    && ((x.stage == Asked(false) || x.stage == Cancelled(false)) ==> Reached(s, x.slot))
    && (x.stage.Cancelled? ==> s.slots[x.slot].cancelled)
    && (x.stage.ReturnedOk? ==> s.slots[x.slot].phase.Closed?)
  }

  ghost predicate Safe(s: State) {
    && Slots(s)
    && (forall sid :: GroupOk(s, sid))
    && (forall i: nat :: i < |s.slots| ==> Owns(s, i))
    && (forall c :: c in s.calls ==> CallOk(s, c))
  }

  lemma SlotKeeps(s: State, l: Label, i: nat)
    requires Slots(s) && Enabled(s, l) && i < |Do(s, l).slots|
    ensures SlotOk(Do(s, l), i)
  {
    if i < |s.slots| { assert SlotOk(s, i); }
  }

  lemma ActiveKeeps(s: State, l: Label, sid: Sid)
    requires Slots(s) && Enabled(s, l) && sid in Do(s, l).active
    ensures Do(s, l).active[sid] < |Do(s, l).slots| && Do(s, l).slots[Do(s, l).active[sid]].sid == sid
  {
  }

  lemma GroupKeeps(s: State, l: Label, sid: Sid)
    requires Safe(s) && Enabled(s, l)
    ensures GroupOk(Do(s, l), sid)
  {
    assert GroupOk(s, sid);
    if l.Unregister? { assert SlotOk(s, l.i); }
  }

  lemma OwnsKeeps(s: State, l: Label, i: nat)
    requires Safe(s) && Enabled(s, l) && i < |Do(s, l).slots|
    ensures Owns(Do(s, l), i)
  {
    if i < |s.slots| {
      assert Owns(s, i) && SlotOk(s, i);
      if l.Register? { assert SlotOk(s, l.i); }
      if l.Unregister? { assert SlotOk(s, l.i); }
    }
  }

  predicate Moves(l: Label, c: nat) {
    (l.Find? || l.LoadToken? || l.AskSession? || l.CancelContext? || l.SeeDone? || l.TimeOut?) && l.c == c
  }

  /** A stop that reached its turn stays so, whoever moves. */
  lemma ReachedStays(s: State, l: Label, i: nat)
    requires Safe(s) && Enabled(s, l) && i < |s.slots| && Reached(s, i)
    ensures i < |Do(s, l).slots| && Reached(Do(s, l), i)
  {
    assert SlotOk(s, i) && Owns(s, i);
    if l.Register? { assert SlotOk(s, l.i); }
  }

  lemma OtherCallKeeps(s: State, l: Label, c: nat)
    requires Safe(s) && Enabled(s, l) && c in s.calls && !Moves(l, c)
    ensures c in Do(s, l).calls && CallOk(Do(s, l), c)
  {
    assert CallOk(s, c);
    if Reached(s, s.calls[c].slot) { ReachedStays(s, l, s.calls[c].slot); }
  }

  lemma OwnCallKeeps(s: State, l: Label, c: nat)
    requires Safe(s) && Enabled(s, l) && Moves(l, c)
    ensures c in Do(s, l).calls && CallOk(Do(s, l), c)
  {
    if c in s.calls {
      var i := s.calls[c].slot;
      assert CallOk(s, c) && SlotOk(s, i) && Owns(s, i);
    }
  }

  lemma StepKeeps(s: State, l: Label)
    requires Safe(s) && Enabled(s, l)
    ensures Safe(Do(s, l))
  {
    var t := Do(s, l);
    forall i: nat | i < |t.slots| ensures SlotOk(t, i) { SlotKeeps(s, l, i); }
    forall sid | sid in t.active ensures t.active[sid] < |t.slots| && t.slots[t.active[sid]].sid == sid { ActiveKeeps(s, l, sid); }
    forall sid ensures GroupOk(t, sid) { GroupKeeps(s, l, sid); }
    forall i: nat | i < |t.slots| ensures Owns(t, i) { OwnsKeeps(s, l, i); }
    forall c | c in t.calls ensures CallOk(t, c) {
      if Moves(l, c) { OwnCallKeeps(s, l, c); } else { OtherCallKeeps(s, l, c); }
    }
  }

  lemma {:induction false} RunKeeps(s: State, ls: seq<Label>, t: State)
    requires Safe(s) && Reaches(s, ls, t)
    ensures Safe(t)
    decreases |ls|
  {
    if ls != [] {
      StepKeeps(s, ls[0]);
      RunKeeps(Do(s, ls[0]), ls[1..], t);
    }
  }

  /** In every interleaving a session has at most one turn between reservation and
      release, done closes at most once and only on a slot out of the map, and a
      CancelAndWait that returned nil leaves its slot gone for good. */
  lemma SlotsAreExclusive(ls: seq<Label>, s: State)
    requires Reaches(Start, ls, s)
    ensures forall i: nat, j: nat :: Reserving(s, i) && Reserving(s, j) && s.slots[i].sid == s.slots[j].sid ==> i == j
    ensures forall i: nat :: i < |s.slots| ==> s.slots[i].dones <= 1 && (s.slots[i].dones == 1 ==> !InMap(s, i))
    ensures forall c :: c in s.calls && s.calls[c].stage.ReturnedOk? ==>
              s.calls[c].slot < |s.slots| && s.slots[s.calls[c].slot].dones == 1 && !InMap(s, s.calls[c].slot)
  {
    RunKeeps(Start, ls, s);
    forall i: nat | i < |s.slots|
      ensures s.slots[i].dones <= 1 && (s.slots[i].dones == 1 ==> !InMap(s, i))
      ensures Reserving(s, i) ==> InMap(s, i)
    {
      assert SlotOk(s, i);
    }
    forall c | c in s.calls && s.calls[c].stage.ReturnedOk?
      ensures s.calls[c].slot < |s.slots| && s.slots[s.calls[c].slot].dones == 1 && !InMap(s, s.calls[c].slot)
    {
      assert CallOk(s, c) && SlotOk(s, s.calls[c].slot);
    }
  }

  /** The stop precedes the context cancel: when an explicit cancel reaches the
      context, its stop has reached the turn's own group, is retained for a turn
      that has not registered, or the turn is over; the one other case is a
      session-level request that found another turn's group. */
  lemma StopPrecedesCancel(ls: seq<Label>, s: State, c: nat)
    requires Reaches(Start, ls, s) && Enabled(s, CancelContext(c))
    ensures s.calls[c].stage == Asked(false) ==> Reached(s, s.calls[c].slot)
  {
    RunKeeps(Start, ls, s);
    assert CallOk(s, c);
  }

  /** A request strays only to a turn that has left the map, or away from a turn
      that has: never between two turns both still in it. */
  lemma StraysAcrossTurnsOnly(ls: seq<Label>, s: State, c: nat)
    requires Reaches(Start, ls, s) && Enabled(s, AskSession(c)) && Strays(s, s.calls[c].slot)
    ensures var other := GroupOf(s.groups, s.slots[s.calls[c].slot].sid).token.value;
      other < |s.slots| && (!InMap(s, other) || !InMap(s, s.calls[c].slot))
  {
    RunKeeps(Start, ls, s);
    assert GroupOk(s, s.slots[s.calls[c].slot].sid);
  }

  /** A retained stop is not lost: the turn that registers next is stopped, and
      storing its group cancels its context before it does any work. */
  lemma RetainedStopIsAdopted(ls: seq<Label>, s: State, i: nat)
    requires Reaches(Start, ls, s) && Enabled(s, Register(i)) && GroupOf(s.groups, s.slots[i].sid).pending
    ensures var t := Do(s, Register(i));
      i in t.groups.stopped && Enabled(t, Store(i)) && Do(t, Store(i)).slots[i].cancelled
  {
  }

  /** A slot of the session that had not registered at s0 has, and its group is stopped. */
  ghost predicate AdoptedSince(s0: State, s: State, sid: Sid) {
    exists i: nat :: i < |s.slots| && Newcomer(s0, s, i) && s.slots[i].sid == sid && i in s.groups.stopped
  }

  predicate Newcomer(s0: State, s: State, i: nat)
    requires i < |s.slots|
  {
    s.slots[i].registered && (i < |s0.slots| ==> !s0.slots[i].registered)
  }

  /** Nothing that had registered at s0 is forgotten. */
  ghost predicate Since(s0: State, s: State) {
    |s0.slots| <= |s.slots| && forall i: nat :: i < |s0.slots| && s0.slots[i].registered ==> s.slots[i].registered
  }

  lemma RetainedStep(s0: State, s: State, l: Label, sid: Sid)
    requires Safe(s) && Enabled(s, l) && Since(s0, s) && (GroupOf(s.groups, sid).pending || AdoptedSince(s0, s, sid))
    ensures Since(s0, Do(s, l)) && (GroupOf(Do(s, l).groups, sid).pending || AdoptedSince(s0, Do(s, l), sid))
  {
    var t := Do(s, l);
    if AdoptedSince(s0, s, sid) {
      var i: nat :| i < |s.slots| && Newcomer(s0, s, i) && s.slots[i].sid == sid && i in s.groups.stopped;
      assert Newcomer(s0, t, i) && t.slots[i].sid == sid && i in t.groups.stopped;
    } else if l.Register? && s.slots[l.i].sid == sid {
      assert SlotOk(s, l.i);
      assert Newcomer(s0, t, l.i) && t.slots[l.i].sid == sid && l.i in t.groups.stopped;
    }
  }

  lemma {:induction false} RetainedSteps(s0: State, s: State, ls: seq<Label>, t: State, sid: Sid)
    requires Safe(s) && Reaches(s, ls, t) && Since(s0, s) && (GroupOf(s.groups, sid).pending || AdoptedSince(s0, s, sid))
    ensures GroupOf(t.groups, sid).pending || AdoptedSince(s0, t, sid)
    decreases |ls|
  {
    if ls != [] {
      RetainedStep(s0, s, ls[0], sid);
      StepKeeps(s, ls[0]);
      RetainedSteps(s0, Do(s, ls[0]), ls[1..], t, sid);
    }
  }

  /** However long it takes, a retained stop waits for a turn of its session: in every
      continuation it is still retained, or a turn that had not registered when it was
      has registered since and its group is stopped. */
  lemma RetainedUntilAdopted(before: seq<Label>, s: State, ls: seq<Label>, t: State, sid: Sid)
    requires Reaches(Start, before, s) && Reaches(s, ls, t) && GroupOf(s.groups, sid).pending
    ensures GroupOf(t.groups, sid).pending || AdoptedSince(s, t, sid)
  {
    RunKeeps(Start, before, s);
    RetainedSteps(s, s, ls, t, sid);
  }

  // ----------------------------------------------------- why a context is cancelled

  predicate LeftMap(x: Slot) { x.phase in {OutOfMap, Unregistered, Closed} }

  ghost predicate Explicit(s: State, i: nat) {
    exists c :: c in s.calls && s.calls[c].slot == i && PastCancel(s.calls[c].stage)
  }

  predicate PastCancel(stage: Stage) { stage.Cancelled? || stage.ReturnedOk? || stage.TimedOut? }

  ghost predicate HasCause(s: State, i: nat)
    requires i < |s.slots|
  {
    LeftMap(s.slots[i]) || (s.slots[i].adopted && s.slots[i].stored) || s.slots[i].failed || Explicit(s, i)
  }

  ghost predicate CausesKnown(s: State) {
    (forall i: nat :: i < |s.slots| ==> (s.slots[i].cancelled <==> HasCause(s, i)))
    && forall c :: c in s.calls ==> s.calls[c].slot < |s.slots|
  }

  lemma ExplicitStep(s: State, l: Label, i: nat)
    requires Safe(s) && Enabled(s, l)
    ensures Explicit(Do(s, l), i) <==> Explicit(s, i) || (l.CancelContext? && s.calls[l.c].slot == i)
  {
    var t := Do(s, l);
    if Explicit(s, i) {
      var c :| c in s.calls && s.calls[c].slot == i && PastCancel(s.calls[c].stage);
      assert t.calls[c].slot == i && PastCancel(t.calls[c].stage);
    }
    if l.CancelContext? && s.calls[l.c].slot == i {
      assert t.calls[l.c].slot == i && PastCancel(t.calls[l.c].stage);
    }
    if Explicit(t, i) {
      var c :| c in t.calls && t.calls[c].slot == i && PastCancel(t.calls[c].stage);
      assert c in s.calls && s.calls[c].slot == i;
    }
  }

  lemma CauseStep(s: State, l: Label)
    requires Safe(s) && Enabled(s, l) && CausesKnown(s)
    ensures CausesKnown(Do(s, l))
  {
    var t := Do(s, l);
    forall i: nat | i < |t.slots|
      ensures t.slots[i].cancelled <==> HasCause(t, i)
    {
      ExplicitStep(s, l, i);
      if i < |s.slots| {
        assert SlotOk(s, i) && (s.slots[i].cancelled <==> HasCause(s, i));
      }
    }
  }

  lemma {:induction false} CauseRun(s: State, ls: seq<Label>, t: State)
    requires Safe(s) && CausesKnown(s) && Reaches(s, ls, t)
    ensures CausesKnown(t)
    decreases |ls|
  {
    if ls != [] {
      CauseStep(s, ls[0]);
      StepKeeps(s, ls[0]);
      CauseRun(Do(s, ls[0]), ls[1..], t);
    }
  }

  /** In every run a turn's context is cancelled exactly when its cleanup has released
      it, it adopted a retained stop, it failed or its request ended, or an explicit
      cancel reached it. */
  lemma CancelledExactly(ls: seq<Label>, s: State, i: nat)
    requires Reaches(Start, ls, s) && i < |s.slots|
    ensures s.slots[i].cancelled <==> HasCause(s, i)
  {
    CauseRun(Start, ls, s);
  }

  ghost predicate Undisturbed(s: State) {
    && s.groups.stopped == {} && (forall sid :: !GroupOf(s.groups, sid).pending)
    && (forall i: nat :: i < |s.slots| ==> !s.slots[i].adopted && (s.slots[i].cancelled ==> LeftMap(s.slots[i]) || s.slots[i].failed))
    && (forall c :: c in s.calls ==> s.calls[c].stage == Found)
  }

  lemma UndisturbedStep(s: State, l: Label)
    requires Undisturbed(s) && Enabled(s, l) && !l.LoadToken?
    ensures Undisturbed(Do(s, l))
  {
    var t := Do(s, l);
    forall sid
      ensures !GroupOf(t.groups, sid).pending
    {
      assert !GroupOf(s.groups, sid).pending;
    }
  }

  /** Without an explicit cancel, turns that start, fail and end, refused ones included,
      stop no group and retain no stop, and none is cancelled before its cleanup unless
      it failed or its request ended. */
  lemma {:induction false} OnlyCancelStops(s: State, ls: seq<Label>, t: State)
    requires Undisturbed(s) && Reaches(s, ls, t) && forall k :: 0 <= k < |ls| ==> !ls[k].LoadToken?
    ensures Undisturbed(t)
    decreases |ls|
  {
    if ls != [] {
      UndisturbedStep(s, ls[0]);
      OnlyCancelStops(Do(s, ls[0]), ls[1..], t);
    }
  }

  lemma {:induction false} Splice(s: State, ls: seq<Label>, m: State, l: Label)
    requires Reaches(s, ls, m) && Enabled(m, l)
    ensures Reaches(s, ls + [l], Do(m, l))
    decreases |ls|
  {
    if ls == [] {
      assert [l][1..] == [] && Reaches(Do(m, l), [], Do(m, l));
    } else {
      Splice(Do(s, ls[0]), ls[1..], m, l);
      assert (ls + [l])[1..] == ls[1..] + [l];
    }
  }

  /** Exactly when an explicit cancel that finds no stored group reaches its turn: unless
      another turn's group is registered then, and this turn is neither over nor
      stopped already. */
  lemma StopReachesExactly(ls: seq<Label>, s: State, c: nat)
    requires Reaches(Start, ls, s) && Enabled(s, AskSession(c))
    ensures var i := s.calls[c].slot;
      i < |Do(s, AskSession(c)).slots|
      && (Reached(Do(s, AskSession(c)), i) <==> !Strays(s, i) || Over(s, i) || i in s.groups.stopped)
  {
    RunKeeps(Start, ls, s);
    var i := s.calls[c].slot;
    assert GroupOk(s, s.slots[i].sid) && SlotOk(s, i) && Owns(s, i);
  }

  /** The claim that the stop always reaches the named turn is false: between one
      turn leaving the map and unregistering, a cancel of the next turn stops the
      old group, and the new turn registers with no stop retained. */
  lemma StopCanMissTheNewTurn(sid: Sid)
    ensures exists ls, s, c ::
      Reaches(Start, ls, s) && Enabled(s, CancelContext(c)) && s.calls[c] == Call(1, Asked(true))
      && s.groups.stopped == {0} && SlotIs(s, 1, Holding) && !GroupOf(s.groups, sid).pending
  {
    var ls, s := CancelGoesAstray(sid);
    assert Reaches(Start, ls, s) && Enabled(s, CancelContext(7));
  }

  lemma CancelGoesAstray(sid: Sid) returns (ls: seq<Label>, s: State)
    ensures Reaches(Start, ls, s)
    ensures s == State(map[sid := 1],
                       [Slot(sid, OutOfMap, true, true, false, false, true, 0), Slot(sid, Holding, false, false, false, false, false, 0)],
                       Groups(map[sid := Group(Some(0), false)], {0}), map[7 := Call(1, Asked(true))])
  {
    ls, s := OldTurnLingers(sid);
    Splice(Start, ls, s, Find(7, sid));
    ls, s := ls + [Find(7, sid)], Do(s, Find(7, sid));
    Splice(Start, ls, s, LoadToken(7));
    ls, s := ls + [LoadToken(7)], Do(s, LoadToken(7));
    assert s.calls == map[7 := Call(1, LoadedNil)];
    Splice(Start, ls, s, AskSession(7));
    ls, s := ls + [AskSession(7)], Do(s, AskSession(7));
  }

  /** A turn out of the map but still registered, and its successor reserved. */
  lemma OldTurnLingers(sid: Sid) returns (ls: seq<Label>, s: State)
    ensures Reaches(Start, ls, s)
    ensures s == State(map[sid := 1],
                       [Slot(sid, OutOfMap, true, true, false, false, true, 0), Slot(sid, Holding, false, false, false, false, false, 0)],
                       Groups(map[sid := Group(Some(0), false)], {}), map[])
  {
    ls, s := OneTurnRan(sid);
    Splice(Start, ls, s, LeaveMap(0));
    ls, s := ls + [LeaveMap(0)], Do(s, LeaveMap(0));
    assert s.active == map[];
    Splice(Start, ls, s, Reserve(sid));
    ls, s := ls + [Reserve(sid)], Do(s, Reserve(sid));
  }

  lemma OneTurnRan(sid: Sid) returns (ls: seq<Label>, s: State)
    ensures Reaches(Start, ls, s)
    ensures s == State(map[sid := 0], [Slot(sid, Ending, true, true, false, false, false, 0)],
                       Groups(map[sid := Group(Some(0), false)], {}), map[])
  {
    ls, s := [], Start;
    Splice(Start, ls, s, Reserve(sid));
    ls, s := ls + [Reserve(sid)], Do(s, Reserve(sid));
    Splice(Start, ls, s, Register(0));
    ls, s := ls + [Register(0)], Do(s, Register(0));
    Splice(Start, ls, s, Store(0));
    ls, s := ls + [Store(0)], Do(s, Store(0));
    Splice(Start, ls, s, Finish(0));
    ls, s := ls + [Finish(0)], Do(s, Finish(0));
  }

  // -------------------------------------------------------------- what does happen

  /** A session without a turn gets one, Holding and in the map; one with a turn keeps it,
      and nothing changes. */
  lemma ReservesExactly(before: seq<Label>, s: State, sid: Sid)
    requires Reaches(Start, before, s)
    ensures var t, i := Do(s, Reserve(sid)), |s.slots|;
      if (exists j: nat :: Reserving(s, j) && s.slots[j].sid == sid) then t == s
      else |t.slots| == i + 1 && t.slots[i] == Slot(sid, Holding, false, false, false, false, false, 0) && InMap(t, i)
           && t.slots[..i] == s.slots && t.groups == s.groups && t.calls == s.calls
  {
    RunKeeps(Start, before, s);
    if sid in s.active {
      var j := s.active[sid];
      assert SlotOk(s, j) && Reserving(s, j);
    } else {
      forall j: nat | Reserving(s, j)
        ensures s.slots[j].sid != sid
      {
        assert SlotOk(s, j);
      }
    }
  }

  /** A turn's own next step towards its end. */
  function Onward(s: State, i: nat): Label
    requires i < |s.slots|
  {
    match s.slots[i].phase
    case Holding => Register(i)
    case Registering => Store(i)
    case Running => Finish(i)
    case Ending => LeaveMap(i)
    case OutOfMap => Unregister(i)
    case _ => CloseDone(i)
  }

  function Ahead(p: Phase): nat {
    match p
    case Holding => 6 case Registering => 5 case Running => 4 case Ending => 3 case OutOfMap => 2 case Unregistered => 1 case Closed => 0
  }

  /** By its own steps every turn ends: out of the map, its done closed, whatever cancels
      are under way. */
  lemma {:induction false} TurnEnds(s: State, i: nat) returns (ls: seq<Label>, t: State)
    requires Safe(s) && i < |s.slots|
    ensures Reaches(s, ls, t) && Safe(t) && |t.slots| == |s.slots| && t.calls == s.calls
    ensures t.slots[i].phase.Closed? && t.slots[i].dones == 1 && !InMap(t, i)
    decreases Ahead(s.slots[i].phase)
  {
    assert SlotOk(s, i);
    if s.slots[i].phase.Closed? {
      return [], s;
    }
    var l := Onward(s, i);
    StepKeeps(s, l);
    ls, t := TurnEnds(Do(s, l), i);
    assert ([l] + ls)[1..] == ls;
    ls := [l] + ls;
  }

  /** A cancel's own next step. */
  function CancelNext(s: State, c: nat): Label
    requires c in s.calls
  {
    match s.calls[c].stage
    case Found => LoadToken(c)
    case LoadedNil => AskSession(c)
    case Asked(_) => CancelContext(c)
    case _ => SeeDone(c)
  }

  function CancelLeft(x: Stage): nat {
    match x case Found => 4 case LoadedNil => 3 case Asked(_) => 2 case _ => 1
  }

  /** Wherever a cancel that found a turn has got to, it can go through: the turn's context
      is cancelled, the turn ends, and the wait returns without an error.  A wait that
      timed out returns that instead. */
  lemma {:induction false} CancelGoesThrough(s: State, c: nat) returns (ls: seq<Label>, t: State)
    requires Safe(s) && c in s.calls && !s.calls[c].stage.ReturnedOk? && !s.calls[c].stage.TimedOut?
    ensures Reaches(s, ls, t) && c in t.calls && t.calls[c] == Call(s.calls[c].slot, ReturnedOk)
    ensures s.calls[c].slot < |t.slots| && t.slots[s.calls[c].slot].cancelled && t.slots[s.calls[c].slot].phase.Closed?
    ensures Enabled(s, TimeOut(c)) ==> Do(s, TimeOut(c)).calls[c].stage.TimedOut?
    decreases CancelLeft(s.calls[c].stage)
  {
    assert CallOk(s, c);
    var i := s.calls[c].slot;
    if s.calls[c].stage.Cancelled? {
      var first, m := TurnEnds(s, i);
      assert CallOk(m, c);
      t := Do(m, SeeDone(c));
      Splice(s, first, m, SeeDone(c));
      ls := first + [SeeDone(c)];
    } else {
      var l := CancelNext(s, c);
      StepKeeps(s, l);
      ls, t := CancelGoesThrough(Do(s, l), c);
      assert ([l] + ls)[1..] == ls;
      ls := [l] + ls;
    }
  }

  // -------------------------------------------------------------- the objects

  /** The registration fields of a session's state. */
  class StopGroups {
    var of: map<Sid, Group>
    var stopped: set<nat>

    constructor ()
      ensures View() == Groups(map[], {})
    {
      of, stopped := map[], {};
    }

    ghost function View(): Groups
      reads this
    {
      Groups(of, stopped)
    }

    function Get(sid: Sid): Group
      reads this
    {
      if sid in of then of[sid] else Group(None, false)
    }

    method Stop(slot: nat)
      modifies this`stopped
      ensures stopped == old(stopped) + {slot}
    {
      stopped := stopped + {slot};
    }

    method Begin(sid: Sid, slot: nat) returns (pending: bool)
      modifies this
      ensures View() == Begun(old(View()), sid, slot) && pending == GroupOf(old(View()), sid).pending
    {
      pending := Get(sid).pending;
      of := of[sid := Group(Some(slot), false)];
      if pending {
        Stop(slot);
      }
    }

    method Request(sid: Sid)
      modifies this
      ensures View() == Requested(old(View()), sid)
    {
      var token := Get(sid).token;
      if token.None? {
        of := of[sid := Group(None, true)];
      } else {
        Stop(token.value);
      }
    }

    method End(sid: Sid, slot: nat) returns (cleared: bool)
      modifies this`of
      ensures View() == Ended(old(View()), sid, slot) && cleared == (GroupOf(old(View()), sid).token == Some(slot))
    {
      cleared := Get(sid).token == Some(slot);
      if cleared {
        of := of[sid := Group(None, Get(sid).pending)];
      }
    }

    /** stopTurnWork: the stored group when there is one, else through the session. */
    method StopTurnWork(sid: Sid, slot: nat, stored: bool)
      modifies this
      ensures View() == if stored then old(View()).(stopped := old(stopped) + {slot}) else Requested(old(View()), sid)
    {
      if stored {
        Stop(slot);
      } else {
        Request(sid);
      }
    }
  }

  class TurnManager {
    var activeTurns: map<Sid, nat>

    constructor ()
      ensures activeTurns == map[]
    {
      activeTurns := map[];
    }

    /** runTurn's reservation: a duplicate is refused and the first turn unaffected. */
    method Reserve(sid: Sid, slot: nat) returns (ok: bool)
      modifies this
      ensures ok == (sid !in old(activeTurns)) && activeTurns == Reserved(old(activeTurns), sid, slot)
    {
      if sid in activeTurns {
        return false;
      }
      activeTurns := activeTurns[sid := slot];
      ok := true;
    }

    method Release(sid: Sid, slot: nat)
      modifies this
      ensures activeTurns == Released(old(activeTurns), sid, slot)
    {
      if sid in activeTurns && activeTurns[sid] == slot {
        activeTurns := activeTurns - {sid};
      }
    }
  }

  // ------------------------------------------------------------ host.go chain

  type Failure = string

  /** A connection's canceller: CancelAndWait on its turn manager. */
  type Canceller = Sid -> Option<Failure>

  /** The errors of the attached cancellers, in registration order. */
  function Errors(chain: seq<Option<Canceller>>, sid: Sid): seq<Failure> {
    if chain == [] then []
    else
      var c, rest := chain[|chain| - 1], Errors(chain[..|chain| - 1], sid);
      if c.Some? && c.value(sid).Some? then rest + [c.value(sid).value] else rest
  }

  /** The chain is silent exactly when every canceller ever attached is. */
  lemma {:induction false} SilentExactly(chain: seq<Option<Canceller>>, sid: Sid)
    ensures Errors(chain, sid) == [] <==> forall i :: 0 <= i < |chain| && chain[i].Some? ==> chain[i].value(sid).None?
  {
    if chain != [] {
      var front := chain[..|chain| - 1];
      SilentExactly(front, sid);
      assert forall i :: 0 <= i < |front| ==> front[i] == chain[i];
    }
  }

  class AgentHost {
    var cancellers: seq<Option<Canceller>>

    constructor ()
      ensures cancellers == []
    {
      cancellers := [];
    }

    method AddTurnCanceller(c: Option<Canceller>)
      modifies this
      ensures cancellers == old(cancellers) + [c]
    {
      cancellers := cancellers + [c];
    }

    /** chainedCancel: every connection's canceller is asked, in order. */
    method ChainedCancel(sid: Sid) returns (errs: seq<Failure>)
      ensures errs == Errors(cancellers, sid)
      ensures errs == [] <==> forall i :: 0 <= i < |cancellers| && cancellers[i].Some? ==> cancellers[i].value(sid).None?
    {
      errs := [];
      for i := 0 to |cancellers|
        invariant errs == Errors(cancellers[..i], sid)
      {
        var c := cancellers[i];
        assert cancellers[..i + 1][..i] == cancellers[..i];
        if c.Some? {
          var e := c.value(sid);
          if e.Some? {
            errs := errs + [e.value];
          }
        }
      }
      assert cancellers[..|cancellers|] == cancellers;
      SilentExactly(cancellers, sid);
    }
  }
}
