/** The stack's part of the response barrier (internal/acp/stack.go
    ensureStackIdle, internal/acp/turn.go runTurn).

    Session events mark the stack dirty; the idle flusher sends a patch for a dirty
    stack unless a turn slot is reserved, and the turn's own loop sends it then.  A
    barrier asks the idle fence and the turn's fence.  ver numbers the session's
    visible states, shown is the newest one the client has been sent. */
module StackBarrier {
  import opened Common

  const CAPACITY := 16

  /** A turn: slot reserved, fence listed and looping, final drain, about to flush,
      flushed, fence closed with the slot still reserved. */
  datatype Turn = NoTurn | Starting | Looping | Draining | Flushing | Flushed | Unfenced

  /** The barrier's place in the list [idle, turn] of fences; or, with First and Second,
      in the list [turn, idle]. */
  datatype Stage = NotAsked | AskingIdle | IdleTaking(left: nat) | IdleFlushing | AskingTurn | TurnTaking(left: nat) | Answered
                 | AskingFirst | FirstTaking(left: nat) | FirstAnswered | SecondTaking(left: nat) | SecondFlushing | SecondAnswered

  /** idle counts the flusher's buffered events; turnBuffer holds the turn's, true
      for those its forwarder lets through (a child's approval is not).  asked is
      the version when the barrier began, listed the turn whose fence it listed,
      covered what the flusher found when it decided, noted what the turn knew when it
      was asked first. */
  datatype State = State(ver: nat, shown: nat, dirty: bool, idle: nat, turnBuffer: seq<bool>, turn: Turn, turnId: nat,
                         stage: Stage, asked: nat, listed: Option<nat>, covered: bool, noted: bool)

  const Start := State(0, 0, false, 0, [], NoTurn, 0, NotAsked, 0, None, false, false)

  datatype Label =
    | Change(through: bool) | IdleTake | IdleTick(due: bool) | TurnTake | TurnTick(due: bool) | ReadStack
    | StartTurn | Reject | Fence | EndLoop | Drained | FinalFlush | CloseFence | Release
    | Ask | HandIdle | ServeIdle | Decide | ServeFlush(due: bool)
    | HandTurn | ServeTurn | CutTurn | AnswerTurn(due: bool) | SeeClosed
    | AskFirst | HandFirst | ServeFirst | CutFirst | AnswerFirst(due: bool) | SeeClosedFirst
    | HandSecond | ServeSecond | DecideSecond | FlushSecond(due: bool)

  predicate Fenced(t: Turn) { t.Looping? || t.Draining? || t.Flushing? || t.Flushed? }
  predicate WillFlush(t: Turn) { t.Looping? || t.Draining? || t.Flushing? }

  /** The turn's loop is busy answering a fence. */
  predicate Serving(s: State) { s.stage.TurnTaking? || s.stage.FirstTaking? }

  /** The flusher's loop is. */
  predicate IdleServing(s: State) { s.stage.IdleTaking? || s.stage.IdleFlushing? || s.stage.SecondTaking? || s.stage.SecondFlushing? }

  predicate FenceGone(s: State) { s.listed != Some(s.turnId) || s.turn.Unfenced? || s.turn.NoTurn? }

  /** The turn will show what is unseen: it is marked, among its own events, or due for
      the closing flush. */
  predicate TurnKnows(s: State) {
    s.turn.Draining? || s.turn.Flushing? || (s.turn.Looping? && (s.dirty || true in s.turnBuffer))
  }

  predicate Enabled(s: State, l: Label) {
    match l
    case Change(_) => Fenced(s.turn) ==> |s.turnBuffer| < CAPACITY
    case IdleTake => s.idle > 0 && !IdleServing(s)
    case IdleTick(_) => s.turn.NoTurn? && !IdleServing(s)
    case TurnTake => (s.turn.Looping? || s.turn.Draining?) && s.turnBuffer != [] && !Serving(s)
    case TurnTick(_) => s.turn.Looping? && !Serving(s)
    case ReadStack => true
    case StartTurn => s.turn.NoTurn?
    case Reject => s.turn.Starting?
    case Fence => s.turn.Starting?
    case EndLoop => s.turn.Looping? && !Serving(s)
    case Drained => s.turn.Draining? && s.turnBuffer == []
    case FinalFlush => s.turn.Flushing?
    case CloseFence => s.turn.Flushed?
    case Release => s.turn.Unfenced?
    case Ask => s.stage.NotAsked?
    case HandIdle => s.stage.AskingIdle?
    case ServeIdle => s.stage.IdleTaking? && s.stage.left > 0 && s.idle > 0
    case Decide => s.stage.IdleTaking? && s.stage.left == 0
    case ServeFlush(_) => s.stage.IdleFlushing?
    case HandTurn => s.stage.AskingTurn? && s.turn.Looping? && s.listed == Some(s.turnId)
    case ServeTurn => s.stage.TurnTaking? && s.stage.left > 0 && s.turnBuffer != []
    case CutTurn => s.stage.TurnTaking?
    case AnswerTurn(_) => s.stage.TurnTaking? && s.stage.left == 0
    case SeeClosed => s.stage.AskingTurn? && FenceGone(s)
    case AskFirst => s.stage.NotAsked?
    case HandFirst => s.stage.AskingFirst? && s.turn.Looping? && s.listed == Some(s.turnId)
    case ServeFirst => s.stage.FirstTaking? && s.stage.left > 0 && s.turnBuffer != []
    case CutFirst => s.stage.FirstTaking?
    case AnswerFirst(_) => s.stage.FirstTaking? && s.stage.left == 0
    case SeeClosedFirst => s.stage.AskingFirst? && FenceGone(s)
    case HandSecond => s.stage.FirstAnswered?
    case ServeSecond => s.stage.SecondTaking? && s.stage.left > 0 && s.idle > 0
    case DecideSecond => s.stage.SecondTaking? && s.stage.left == 0
    case FlushSecond(_) => s.stage.SecondFlushing?
  }

  /** flushProjectorFor: a dirty-only flush of a clean stack sends nothing unless the
      elapsed-time wake is due; any other leaves the client with the current tree. */
  function Flush(s: State, due: bool): State {
    if s.dirty || due then s.(shown := s.ver, dirty := false) else s
  }

  function Taken(s: State): State
    requires s.turnBuffer != []
  {
    s.(dirty := s.dirty || s.turnBuffer[0], turnBuffer := s.turnBuffer[1..])
  }

  function Do(s: State, l: Label): State
    requires Enabled(s, l)
  {
    match l
    case Change(through) =>
      s.(ver := s.ver + 1, idle := if s.idle < CAPACITY then s.idle + 1 else s.idle,
         turnBuffer := if Fenced(s.turn) then s.turnBuffer + [through] else s.turnBuffer)
    case IdleTake => s.(idle := s.idle - 1, dirty := true)
    case IdleTick(due) => Flush(s, due)
    case TurnTake => Taken(s)
    case TurnTick(due) => Flush(s, due)
    case ReadStack => Flush(s, true)
    case StartTurn => s.(turn := Starting, turnId := s.turnId + 1, turnBuffer := [])
    case Reject => s.(turn := NoTurn)
    case Fence => s.(turn := Looping)
    case EndLoop => s.(turn := Draining)
    case Drained => s.(turn := Flushing)
    case FinalFlush => Flush(s, true).(turn := Flushed)
    case CloseFence => s.(turn := Unfenced)
    case Release => s.(turn := NoTurn)
    case Ask => s.(stage := AskingIdle, asked := s.ver, listed := if Fenced(s.turn) then Some(s.turnId) else None)
    case HandIdle => s.(stage := IdleTaking(s.idle))
    case ServeIdle => s.(idle := s.idle - 1, dirty := true, stage := IdleTaking(s.stage.left - 1))
    case Decide =>
      s.(stage := if s.turn.NoTurn? then IdleFlushing else AskingTurn,
         covered := s.turn.NoTurn? || (WillFlush(s.turn) && s.listed == Some(s.turnId)))
    case ServeFlush(due) => Flush(s, due).(stage := AskingTurn)
    case HandTurn => s.(stage := TurnTaking(|s.turnBuffer|))
    case ServeTurn => Taken(s).(stage := TurnTaking(s.stage.left - 1))
    case CutTurn => s.(stage := TurnTaking(0))
    case AnswerTurn(due) => Flush(s, due).(stage := Answered)
    case SeeClosed => s.(stage := Answered)
    case AskFirst => s.(stage := AskingFirst, asked := s.ver, listed := if Fenced(s.turn) then Some(s.turnId) else None,
                        noted := s.shown == s.ver || TurnKnows(s))
    case HandFirst => s.(stage := FirstTaking(|s.turnBuffer|))
    case ServeFirst => Taken(s).(stage := FirstTaking(s.stage.left - 1))
    case CutFirst => s.(stage := FirstTaking(0), noted := false)
    case AnswerFirst(due) => Flush(s, due).(stage := FirstAnswered)
    case SeeClosedFirst => s.(stage := FirstAnswered)
    case HandSecond => s.(stage := SecondTaking(s.idle))
    case ServeSecond => s.(idle := s.idle - 1, dirty := true, stage := SecondTaking(s.stage.left - 1))
    case DecideSecond => s.(stage := if s.turn.NoTurn? then SecondFlushing else SecondAnswered, covered := s.turn.NoTurn?)
    case FlushSecond(due) => Flush(s, due).(stage := SecondAnswered)
  }

  ghost predicate Reaches(s: State, ls: seq<Label>, t: State)
    decreases |ls|
  {
    if ls == [] then s == t else Enabled(s, ls[0]) && Reaches(Do(s, ls[0]), ls[1..], t)
  }

  /** Nothing unseen is forgotten: it is marked dirty or still in the flusher's
      buffer, however many events that buffer dropped. */
  ghost predicate Remembered(s: State) {
    s.shown <= s.ver && (s.shown == s.ver || s.dirty || s.idle > 0)
  }

  predicate Pending(s: State) { s.shown >= s.asked || s.dirty }

  ghost predicate Promised(s: State) {
    match s.stage
    case NotAsked => true
    case AskingIdle => s.asked <= s.ver
    case IdleTaking(n) => s.asked <= s.ver && n <= s.idle && (Pending(s) || n > 0)
    case IdleFlushing => s.asked <= s.ver && Pending(s) && s.covered
    case AskingTurn => s.asked <= s.ver && Pending(s)
                       && (s.covered && s.shown < s.asked ==> WillFlush(s.turn) && s.listed == Some(s.turnId))
    case TurnTaking(_) => s.asked <= s.ver && Pending(s) && s.turn.Looping?
    case Answered => s.covered ==> s.shown >= s.asked
    case _ => true
  }

  ghost predicate PromisedFirst(s: State) {
    match s.stage
    case AskingFirst => s.asked <= s.ver && (s.noted ==> s.shown >= s.asked || (s.listed == Some(s.turnId) && TurnKnows(s)))
    case FirstTaking(n) => s.asked <= s.ver && s.turn.Looping? && n <= |s.turnBuffer|
                           && (s.noted ==> Pending(s) || true in s.turnBuffer[..n])
    case FirstAnswered => s.asked <= s.ver && (s.noted ==> s.shown >= s.asked)
    case SecondTaking(n) => s.asked <= s.ver && n <= s.idle && (s.noted ==> s.shown >= s.asked) && (Pending(s) || n > 0)
    case SecondFlushing => s.asked <= s.ver && s.covered && Pending(s)
    case SecondAnswered => s.asked <= s.ver && (s.noted || s.covered ==> s.shown >= s.asked)
    case _ => true
  }

  predicate ListedBefore(s: State) { s.listed.Some? ==> s.listed.value <= s.turnId }

  ghost predicate Inv(s: State) {
    Remembered(s) && Promised(s) && PromisedFirst(s) && ListedBefore(s)
  }

  /** A step of the flusher, the turn or the session, not of the barrier. */
  predicate Outside(l: Label) {
    l.Change? || l.IdleTake? || l.IdleTick? || l.TurnTake? || l.TurnTick? || l.ReadStack? || l.StartTurn? || l.Reject?
    || l.Fence? || l.EndLoop? || l.Drained? || l.FinalFlush? || l.CloseFence? || l.Release?
  }

  lemma OutsideRemembers(s: State, l: Label)
    requires Remembered(s) && Enabled(s, l) && Outside(l)
    ensures Remembered(Do(s, l))
  {
  }

  lemma BarrierRemembers(s: State, l: Label)
    requires Remembered(s) && Enabled(s, l) && !Outside(l)
    ensures Remembered(Do(s, l))
  {
  }

  lemma StepRemembers(s: State, l: Label)
    requires Remembered(s) && Enabled(s, l)
    ensures Remembered(Do(s, l))
  {
    if Outside(l) { OutsideRemembers(s, l); } else { BarrierRemembers(s, l); }
  }

  lemma OutsideKeepsPromise(s: State, l: Label)
    requires Remembered(s) && Promised(s) && ListedBefore(s) && Enabled(s, l) && Outside(l)
    ensures Promised(Do(s, l))
  {
  }

  lemma BarrierKeepsPromise(s: State, l: Label)
    requires Remembered(s) && Promised(s) && ListedBefore(s) && Enabled(s, l) && !Outside(l)
    ensures Promised(Do(s, l))
  {
  }

  lemma StepKeepsPromise(s: State, l: Label)
    requires Remembered(s) && Promised(s) && ListedBefore(s) && Enabled(s, l)
    ensures Promised(Do(s, l))
  {
    if Outside(l) { OutsideKeepsPromise(s, l); } else { BarrierKeepsPromise(s, l); }
  }

  lemma OutsideKeepsFirst(s: State, l: Label)
    requires Remembered(s) && PromisedFirst(s) && ListedBefore(s) && Enabled(s, l) && Outside(l)
    ensures PromisedFirst(Do(s, l))
  {
    if s.turnBuffer != [] {
      assert s.turnBuffer == [s.turnBuffer[0]] + s.turnBuffer[1..];
    }
    if l.Change? && s.stage.FirstTaking? {
      assert (s.turnBuffer + [l.through])[..s.stage.left] == s.turnBuffer[..s.stage.left];
    }
  }

  lemma BarrierKeepsFirst(s: State, l: Label)
    requires Remembered(s) && PromisedFirst(s) && ListedBefore(s) && Enabled(s, l) && !Outside(l)
    ensures PromisedFirst(Do(s, l))
  {
    match l {
      case HandFirst => assert s.turnBuffer[..|s.turnBuffer|] == s.turnBuffer;
      case ServeFirst =>
        var n := s.stage.left;
        assert s.turnBuffer[..n] == [s.turnBuffer[0]] + s.turnBuffer[1..][..n - 1];
      case _ =>
    }
  }

  lemma StepKeepsFirst(s: State, l: Label)
    requires Remembered(s) && PromisedFirst(s) && ListedBefore(s) && Enabled(s, l)
    ensures PromisedFirst(Do(s, l))
  {
    if Outside(l) { OutsideKeepsFirst(s, l); } else { BarrierKeepsFirst(s, l); }
  }

  lemma StepKeeps(s: State, l: Label)
    requires Inv(s) && Enabled(s, l)
    ensures Inv(Do(s, l))
  {
    StepRemembers(s, l);
    StepKeepsPromise(s, l);
    StepKeepsFirst(s, l);
  }

  lemma {:induction false} RunKeeps(s: State, ls: seq<Label>, t: State)
    requires Inv(s) && Reaches(s, ls, t)
    ensures Inv(t)
    decreases |ls|
  {
    if ls != [] {
      StepKeeps(s, ls[0]);
      RunKeeps(Do(s, ls[0]), ls[1..], t);
    }
  }

  /** Read your writes for the stack, the idle fence asked first: in every
      interleaving, when the barrier is answered the client has been sent every
      state up to the one the barrier began at, provided that when the flusher
      decided there was no turn, or the turn was one whose fence the barrier listed
      and whose closing flush was still to come. */
  lemma BarrierShows(ls: seq<Label>, t: State)
    requires Reaches(Start, ls, t) && t.stage.Answered? && t.covered
    ensures t.shown >= t.asked
  {
    RunKeeps(Start, ls, t);
  }

  /** The turn's fence asked first, then the idle fence: when the barrier is answered the
      client has been sent every state up to its start, provided the turn was not cut off
      and nothing was unseen or the turn knew of it, or the flusher then found no turn. */
  lemma TurnFirstShows(ls: seq<Label>, t: State)
    requires Reaches(Start, ls, t) && t.stage.SecondAnswered? && (t.noted || t.covered)
    ensures t.shown >= t.asked
  {
    RunKeeps(Start, ls, t);
  }

  /** The barrier's own steps from asking the idle fence to its decision. */
  function IdleSteps(n: nat): seq<Label> {
    if n == 0 then [Decide] else [ServeIdle] + IdleSteps(n - 1)
  }

  lemma {:induction false} IdleSkips(s: State, n: nat, t: State)
    requires s.stage == IdleTaking(n) && n == s.idle && !s.turn.NoTurn?
    requires t == s.(idle := 0, dirty := s.dirty || n > 0, stage := AskingTurn,
                     covered := WillFlush(s.turn) && s.listed == Some(s.turnId))
    ensures Reaches(s, IdleSteps(n), t)
    decreases n
  {
    if n == 0 {
      assert IdleSteps(n)[1..] == [];
      assert Reaches(t, [], t);
    } else {
      assert IdleSteps(n)[1..] == IdleSteps(n - 1);
      IdleSkips(Do(s, ServeIdle), n - 1, t);
    }
  }

  lemma {:induction false} Joined(s: State, ls: seq<Label>, m: State, rest: seq<Label>, t: State)
    requires Reaches(s, ls, m) && Reaches(m, rest, t)
    ensures Reaches(s, ls + rest, t)
    decreases |ls|
  {
    if ls == [] {
      assert ls + rest == rest;
    } else {
      Joined(Do(s, ls[0]), ls[1..], m, rest, t);
      assert (ls + rest)[1..] == ls[1..] + rest;
    }
  }

  lemma Two(s: State, l: Label, k: Label)
    requires Enabled(s, l) && Enabled(Do(s, l), k)
    ensures Reaches(s, [l, k], Do(Do(s, l), k))
  {
    assert [l, k][1..] == [k] && [k][1..] == [];
    assert Reaches(Do(Do(s, l), k), [], Do(Do(s, l), k));
  }

  lemma One(s: State, l: Label)
    requires Enabled(s, l)
    ensures Reaches(s, [l], Do(s, l))
  {
    assert [l][1..] == [] && Reaches(Do(s, l), [], Do(s, l));
  }

  /** Asked with a turn slot reserved that the flusher leaves to the turn. */
  lemma IdleLeavesIt(s: State) returns (ls: seq<Label>, d: State)
    requires s.stage.NotAsked? && !s.turn.NoTurn? && !WillFlush(s.turn)
    ensures Reaches(s, ls, d) && d.turn == s.turn && d.turnId == s.turnId && d.listed == (if Fenced(s.turn) then Some(s.turnId) else None)
    ensures d.stage.AskingTurn? && d.asked == s.ver && d.shown == s.shown
  {
    var a := Do(Do(s, Ask), HandIdle);
    Two(s, Ask, HandIdle);
    d := a.(idle := 0, dirty := a.dirty || s.idle > 0, stage := AskingTurn, covered := false);
    IdleSkips(a, s.idle, d);
    Joined(s, [Ask, HandIdle], a, IdleSteps(s.idle), d);
    ls := [Ask, HandIdle] + IdleSteps(s.idle);
  }

  /** The proviso is needed: in any state with something unseen and a turn slot
      reserved outside that span, the barrier's own steps (and, for a turn that has
      flushed, the closing of its fence) end with nothing more sent. */
  lemma WindowMisses(s: State) returns (ls: seq<Label>, t: State)
    requires s.stage.NotAsked? && s.shown < s.ver && (s.turn.Starting? || s.turn.Flushed? || s.turn.Unfenced?)
    ensures Reaches(s, ls, t) && t.stage.Answered? && t.asked == s.ver && t.shown == s.shown < t.asked
  {
    var d;
    ls, d := IdleLeavesIt(s);
    if s.turn.Flushed? {
      Two(d, CloseFence, SeeClosed);
      t := Do(Do(d, CloseFence), SeeClosed);
      Joined(s, ls, d, [CloseFence, SeeClosed], t);
      ls := ls + [CloseFence, SeeClosed];
    } else {
      One(d, SeeClosed);
      t := Do(d, SeeClosed);
      Joined(s, ls, d, [SeeClosed], t);
      ls := ls + [SeeClosed];
    }
  }

  /** The barrier has passed the flusher's decision, in either order. */
  predicate Decided(s: State) {
    s.stage.IdleFlushing? || s.stage.AskingTurn? || s.stage.TurnTaking? || s.stage.Answered? || s.stage.SecondFlushing? || s.stage.SecondAnswered?
  }

  /** What the decision settled, and what only grows after it. */
  predicate StillDecided(s: State, t: State) {
    Decided(t) && t.covered == s.covered && t.asked == s.asked && t.shown >= s.shown
  }

  lemma DecidedOutside(s: State, l: Label)
    requires Remembered(s) && Decided(s) && Enabled(s, l) && Outside(l)
    ensures StillDecided(s, Do(s, l))
  {
  }

  lemma DecidedStep(s: State, l: Label)
    requires Remembered(s) && Decided(s) && Enabled(s, l)
    ensures StillDecided(s, Do(s, l))
  {
    if Outside(l) { DecidedOutside(s, l); }
  }

  lemma {:induction false} DecisionStands(s: State, ls: seq<Label>, t: State)
    requires Remembered(s) && Decided(s) && Reaches(s, ls, t)
    ensures StillDecided(s, t)
    decreases |ls|
  {
    if ls != [] {
      DecidedStep(s, ls[0]);
      StepRemembers(s, ls[0]);
      DecisionStands(Do(s, ls[0]), ls[1..], t);
    }
  }

  predicate Ended(s: State) { s.stage.Answered? || s.stage.SecondAnswered? }

  /** However the barrier goes on, its answer finds everything it asked for shown. */
  ghost predicate Kept(s: State) {
    forall ls, t :: Reaches(s, ls, t) ==> (Ended(t) ==> t.shown >= t.asked)
  }

  lemma NotKept(s: State, ls: seq<Label>, t: State)
    requires Reaches(s, ls, t) && Ended(t) && t.shown < t.asked
    ensures !Kept(s)
  {
  }

  lemma CoveredKept(s: State)
    requires Inv(s) && Decided(s) && (s.covered || s.shown >= s.asked)
    ensures Kept(s)
  {
    forall ls, t | Reaches(s, ls, t)
      ensures Ended(t) ==> t.shown >= t.asked
    {
      RunKeeps(s, ls, t);
      DecisionStands(s, ls, t);
    }
  }

  /** The rest of a barrier the flusher did not cover: nothing more need be sent. */
  lemma UncoveredMisses(s: State) returns (ls: seq<Label>, t: State)
    requires s.stage == IdleTaking(0) && !s.turn.NoTurn? && !(WillFlush(s.turn) && s.listed == Some(s.turnId))
    ensures Reaches(Do(s, Decide), ls, t) && t.stage.Answered? && t.shown == s.shown && t.asked == s.asked
  {
    var d := Do(s, Decide);
    if s.listed == Some(s.turnId) && (s.turn.Flushed? || s.turn.Starting?) {
      var end := if s.turn.Flushed? then CloseFence else Reject;
      Two(d, end, SeeClosed);
      ls, t := [end, SeeClosed], Do(Do(d, end), SeeClosed);
    } else {
      One(d, SeeClosed);
      ls, t := [SeeClosed], Do(d, SeeClosed);
    }
  }

  /** Exactly when the barrier is kept, at the moment the flusher decides: however it goes
      on, its answer finds everything asked for shown, if and only if that is shown already,
      there is no turn, or the turn is one whose fence the barrier listed and whose closing
      flush is still to come.  A turn that started after the fences were listed is not. */
  lemma DecisionExactly(before: seq<Label>, s: State)
    requires Reaches(Start, before, s) && s.stage == IdleTaking(0)
    ensures Kept(Do(s, Decide)) <==> s.shown >= s.asked || s.turn.NoTurn? || (WillFlush(s.turn) && s.listed == Some(s.turnId))
  {
    RunKeeps(Start, before, s);
    StepKeeps(s, Decide);
    if s.shown >= s.asked || s.turn.NoTurn? || (WillFlush(s.turn) && s.listed == Some(s.turnId)) {
      CoveredKept(Do(s, Decide));
    } else {
      var ls, t := UncoveredMisses(s);
      NotKept(Do(s, Decide), ls, t);
    }
  }

  /** The same for the other order, whose last fence is the flusher's. */
  lemma SecondDecisionExactly(before: seq<Label>, s: State)
    requires Reaches(Start, before, s) && s.stage == SecondTaking(0)
    ensures Kept(Do(s, DecideSecond)) <==> s.shown >= s.asked || s.turn.NoTurn?
  {
    RunKeeps(Start, before, s);
    StepKeeps(s, DecideSecond);
    var d := Do(s, DecideSecond);
    if s.shown >= s.asked || s.turn.NoTurn? {
      CoveredKept(d);
    } else {
      assert Reaches(d, [], d);
      NotKept(d, [], d);
    }
  }

  function FirstSteps(n: nat): seq<Label> {
    if n == 0 then [AnswerFirst(false)] else [ServeFirst] + FirstSteps(n - 1)
  }

  lemma {:induction false} FirstSkips(s: State, n: nat, t: State)
    requires s.stage == FirstTaking(n) && n == |s.turnBuffer| && !s.dirty && true !in s.turnBuffer
    requires t == s.(turnBuffer := [], stage := FirstAnswered)
    ensures Reaches(s, FirstSteps(n), t)
    decreases n
  {
    if n == 0 {
      assert FirstSteps(n)[1..] == [] && Reaches(t, [], t);
    } else {
      assert FirstSteps(n)[1..] == FirstSteps(n - 1);
      FirstSkips(Do(s, ServeFirst), n - 1, t);
    }
  }

  function SecondSteps(n: nat): seq<Label> {
    if n == 0 then [DecideSecond] else [ServeSecond] + SecondSteps(n - 1)
  }

  lemma {:induction false} SecondSkips(s: State, n: nat, t: State)
    requires s.stage == SecondTaking(n) && n == s.idle && !s.turn.NoTurn?
    requires t == s.(idle := 0, dirty := s.dirty || n > 0, stage := SecondAnswered, covered := false)
    ensures Reaches(s, SecondSteps(n), t)
    decreases n
  {
    if n == 0 {
      assert SecondSteps(n)[1..] == [] && Reaches(t, [], t);
    } else {
      assert SecondSteps(n)[1..] == SecondSteps(n - 1);
      SecondSkips(Do(s, ServeSecond), n - 1, t);
    }
  }

  lemma FirstSkipsAll(s: State) returns (ls: seq<Label>, f: State)
    requires s.stage.NotAsked? && s.turn.Looping? && !TurnKnows(s)
    ensures Reaches(s, ls, f) && f.stage.FirstAnswered? && f.turn == s.turn && f.asked == s.ver && f.shown == s.shown && f.idle == s.idle
  {
    var a := Do(Do(s, AskFirst), HandFirst);
    Two(s, AskFirst, HandFirst);
    f := a.(turnBuffer := [], stage := FirstAnswered);
    FirstSkips(a, |s.turnBuffer|, f);
    Joined(s, [AskFirst, HandFirst], a, FirstSteps(|s.turnBuffer|), f);
    ls := [AskFirst, HandFirst] + FirstSteps(|s.turnBuffer|);
  }

  /** The proviso is needed in this order too: from any state with a looping turn that
      does not know of something unseen, the whole barrier's own steps end with nothing
      more sent, the flusher having only marked the stack. */
  lemma TurnFirstMisses(s: State) returns (ls: seq<Label>, t: State)
    requires s.stage.NotAsked? && s.shown < s.ver && s.turn.Looping? && !TurnKnows(s)
    ensures Reaches(s, ls, t) && t.stage.SecondAnswered? && t.asked == s.ver && t.shown == s.shown < t.asked
  {
    var first, f := FirstSkipsAll(s);
    One(f, HandSecond);
    var h := Do(f, HandSecond);
    t := h.(idle := 0, dirty := h.dirty || h.idle > 0, stage := SecondAnswered, covered := false);
    SecondSkips(h, h.idle, t);
    Joined(f, [HandSecond], h, SecondSteps(h.idle), t);
    Joined(s, first, f, [HandSecond] + SecondSteps(h.idle), t);
    ls := first + ([HandSecond] + SecondSteps(h.idle));
  }

  /** The turn-first order in terms of what happened: when nothing was unseen at the start,
      or the turn knew of it, and the turn was not cut off, the answer finds it shown. */
  lemma TurnFirstPlain(before: seq<Label>, s: State, ls: seq<Label>, t: State)
    requires Reaches(Start, before, s) && Enabled(s, AskFirst) && Reaches(Do(s, AskFirst), ls, t) && t.stage.SecondAnswered?
    requires s.shown == s.ver || s.turn.Draining? || s.turn.Flushing? || (s.turn.Looping? && (s.dirty || true in s.turnBuffer))
    requires CutFirst !in ls
    ensures t.asked == s.ver && t.shown >= s.ver
  {
    RunKeeps(Start, before, s);
    StepKeeps(s, AskFirst);
    NotedStays(Do(s, AskFirst), ls, t);
    RunKeeps(Do(s, AskFirst), ls, t);
  }

  lemma {:induction false} NotedStays(s: State, ls: seq<Label>, t: State)
    requires Reaches(s, ls, t) && !s.stage.NotAsked? && CutFirst !in ls
    ensures t.noted == s.noted && t.asked == s.asked
    decreases |ls|
  {
    if ls != [] {
      NotedStep(s, ls[0]);
      NotedStays(Do(s, ls[0]), ls[1..], t);
    }
  }

  lemma NotedStep(s: State, l: Label)
    requires Enabled(s, l) && !s.stage.NotAsked? && l != CutFirst
    ensures Do(s, l).noted == s.noted && Do(s, l).asked == s.asked && !Do(s, l).stage.NotAsked?
  {
  }

  // -------------------------------------------------------------- what does happen

  /** The flusher's ticks, without any barrier: taking what is buffered and then one tick
      show every change there was, while no turn runs. */
  function Takes(l: Label, n: nat): seq<Label> { if n == 0 then [] else [l] + Takes(l, n - 1) }

  lemma {:induction false} IdleShowsAll(before: seq<Label>, s: State) returns (t: State)
    requires Reaches(Start, before, s) && s.turn.NoTurn? && !IdleServing(s)
    ensures Reaches(s, Takes(IdleTake, s.idle) + [IdleTick(false)], t) && t.shown == t.ver == s.ver && !t.dirty && t.stage == s.stage
  {
    RunKeeps(Start, before, s);
    var m := s.(idle := 0, dirty := s.dirty || s.idle > 0);
    IdleTakesAll(s);
    One(m, IdleTick(false));
    t := Do(m, IdleTick(false));
    Joined(s, Takes(IdleTake, s.idle), m, [IdleTick(false)], t);
  }

  lemma {:induction false} IdleTakesAll(s: State)
    requires !IdleServing(s)
    ensures Reaches(s, Takes(IdleTake, s.idle), s.(idle := 0, dirty := s.dirty || s.idle > 0))
    decreases s.idle
  {
    if s.idle > 0 {
      IdleTakesAll(Do(s, IdleTake));
      assert Takes(IdleTake, s.idle)[1..] == Takes(IdleTake, s.idle - 1);
    }
  }

  /** A looping turn does the same with what its forwarder lets through. */
  lemma {:induction false} TurnShowsAll(s: State) returns (t: State)
    requires s.turn.Looping? && !Serving(s)
    ensures Reaches(s, Takes(TurnTake, |s.turnBuffer|) + [TurnTick(false)], t) && !t.dirty && t.turn == s.turn && t.stage == s.stage
    ensures t.shown == if s.dirty || true in s.turnBuffer then s.ver else s.shown
  {
    var m := s.(turnBuffer := [], dirty := s.dirty || true in s.turnBuffer);
    TurnTakesAll(s);
    One(m, TurnTick(false));
    t := Do(m, TurnTick(false));
    Joined(s, Takes(TurnTake, |s.turnBuffer|), m, [TurnTick(false)], t);
  }

  lemma {:induction false} TurnTakesAll(s: State)
    requires (s.turn.Looping? || s.turn.Draining?) && !Serving(s)
    ensures Reaches(s, Takes(TurnTake, |s.turnBuffer|), s.(turnBuffer := [], dirty := s.dirty || true in s.turnBuffer))
    decreases |s.turnBuffer|
  {
    if s.turnBuffer != [] {
      TurnTakesAll(Do(s, TurnTake));
      assert Takes(TurnTake, |s.turnBuffer|)[1..] == Takes(TurnTake, |s.turnBuffer| - 1);
      assert s.turnBuffer == [s.turnBuffer[0]] + s.turnBuffer[1..];
    } else {
      assert s == s.(turnBuffer := [], dirty := s.dirty || true in s.turnBuffer);
    }
  }

  /** A read and a turn's closing flush show the current state, marked or not; a tick, and
      a fence's answer, show it exactly when the stack is marked or its wake is due. */
  lemma FlushesShow(s: State, l: Label)
    requires Enabled(s, l)
    ensures l.ReadStack? || l.FinalFlush? ==> Do(s, l).shown == s.ver && !Do(s, l).dirty
    ensures l.IdleTick? || l.TurnTick? || l.ServeFlush? || l.AnswerTurn? || l.AnswerFirst? || l.FlushSecond?
      ==> Do(s, l).shown == (if s.dirty || l.due then s.ver else s.shown) && !Do(s, l).dirty
  {
  }

  /** A fence being answered has that many events in its buffer; a turn that has no fence
      yet has none, and no barrier has listed it. */
  ghost predicate Queued(s: State) {
    && (s.stage.TurnTaking? || s.stage.FirstTaking? ==> s.stage.left <= |s.turnBuffer| && s.turn.Looping?)
    && (s.turn.Starting? ==> s.turnBuffer == [] && s.listed != Some(s.turnId))
  }

  lemma QueuedOutside(s: State, l: Label)
    requires Queued(s) && ListedBefore(s) && Enabled(s, l) && Outside(l)
    ensures Queued(Do(s, l)) && ListedBefore(Do(s, l))
  {
  }

  lemma QueuedStep(s: State, l: Label)
    requires Queued(s) && ListedBefore(s) && Enabled(s, l)
    ensures Queued(Do(s, l)) && ListedBefore(Do(s, l))
  {
    if Outside(l) { QueuedOutside(s, l); }
  }

  lemma {:induction false} QueuedRun(s: State, ls: seq<Label>, t: State)
    requires Inv(s) && Queued(s) && Reaches(s, ls, t)
    ensures Inv(t) && Queued(t)
    decreases |ls|
  {
    if ls != [] {
      StepKeeps(s, ls[0]);
      QueuedStep(s, ls[0]);
      QueuedRun(Do(s, ls[0]), ls[1..], t);
    }
  }

  /** A turn's buffer holds only what happened since its fence was listed. */
  lemma TurnsBeginFresh(before: seq<Label>, s: State)
    requires Reaches(Start, before, s) && Enabled(s, Fence)
    ensures Do(s, Fence).turnBuffer == [] && Do(s, Fence).turn.Looping? && Do(s, Reject).turn.NoTurn? && s.listed != Some(s.turnId)
  {
    QueuedRun(Start, before, s);
  }

  predicate Underway(s: State) { !s.stage.NotAsked? && !Ended(s) }

  function TurnLeft(t: Turn): nat {
    match t case Draining => 4 case Flushing => 3 case Flushed => 2 case _ => 0
  }

  function Far(s: Stage): nat {
    match s
    case AskingIdle => 5 case IdleTaking(_) => 4 case IdleFlushing => 3 case AskingTurn => 2 case TurnTaking(_) => 1
    case AskingFirst => 6 case FirstTaking(_) => 5 case FirstAnswered => 4 case SecondTaking(_) => 3 case SecondFlushing => 2
    case _ => 0
  }

  function Left(s: Stage): nat {
    match s
    case IdleTaking(n) => n case TurnTaking(n) => n case FirstTaking(n) => n case SecondTaking(n) => n case _ => 0
  }

  /** The step that takes an unfinished barrier on: its own, or its turn's towards the
      closing of the fence it waits for. */
  function Next(s: State): Label
    requires Underway(s)
  {
    match s.stage
    case AskingIdle => HandIdle
    case IdleTaking(n) => if n > 0 then ServeIdle else Decide
    case IdleFlushing => ServeFlush(false)
    case AskingTurn => if FenceGone(s) then SeeClosed else if s.turn.Looping? then HandTurn else TurnNext(s)
    case TurnTaking(n) => if n > 0 then ServeTurn else AnswerTurn(false)
    case AskingFirst => if FenceGone(s) then SeeClosedFirst else if s.turn.Looping? then HandFirst else TurnNext(s)
    case FirstTaking(n) => if n > 0 then ServeFirst else AnswerFirst(false)
    case FirstAnswered => HandSecond
    case SecondTaking(n) => if n > 0 then ServeSecond else DecideSecond
    case _ => FlushSecond(false)
  }

  function TurnNext(s: State): Label {
    match s.turn
    case Draining => if s.turnBuffer != [] then TurnTake else Drained
    case Flushing => FinalFlush
    case _ => CloseFence
  }

  predicate Nearer(s: State, t: State) {
    || Far(t.stage) < Far(s.stage)
    || (t.stage == s.stage && TurnLeft(t.turn) < TurnLeft(s.turn))
    || (t.stage == s.stage && t.turn == s.turn && |t.turnBuffer| < |s.turnBuffer|)
    || (Far(t.stage) == Far(s.stage) && t.turn == s.turn && |t.turnBuffer| <= |s.turnBuffer| && Left(t.stage) < Left(s.stage))
  }

  predicate Advances(s: State, l: Label) {
    Enabled(s, l) && Nearer(s, Do(s, l)) && !Do(s, l).stage.NotAsked? && Do(s, l).asked == s.asked
  }

  lemma AskAdvances(s: State)
    requires Inv(s) && Queued(s) && s.stage.AskingTurn?
    ensures Advances(s, Next(s))
  {
  }

  lemma AskFirstAdvances(s: State)
    requires Inv(s) && Queued(s) && s.stage.AskingFirst?
    ensures Advances(s, Next(s))
  {
  }

  lemma IdleFenceAdvances(s: State)
    requires Inv(s) && Queued(s) && (s.stage.AskingIdle? || s.stage.IdleTaking? || s.stage.IdleFlushing?)
    ensures Advances(s, Next(s))
  {
  }

  lemma TurnFenceAdvances(s: State)
    requires Inv(s) && Queued(s) && (s.stage.TurnTaking? || s.stage.FirstTaking?)
    ensures Advances(s, Next(s))
  {
  }

  lemma SecondAdvances(s: State)
    requires Inv(s) && Queued(s) && (s.stage.FirstAnswered? || s.stage.SecondTaking? || s.stage.SecondFlushing?)
    ensures Advances(s, Next(s))
  {
  }

  /** In every reachable state that step is enabled and brings the barrier nearer its end. */
  lemma NextAdvances(s: State)
    requires Inv(s) && Queued(s) && Underway(s)
    ensures Advances(s, Next(s))
  {
    match s.stage {
      case AskingTurn => AskAdvances(s);
      case AskingFirst => AskFirstAdvances(s);
      case TurnTaking(_) => TurnFenceAdvances(s);
      case FirstTaking(_) => TurnFenceAdvances(s);
      case AskingIdle => IdleFenceAdvances(s);
      case IdleTaking(_) => IdleFenceAdvances(s);
      case IdleFlushing => IdleFenceAdvances(s);
      case _ => SecondAdvances(s);
    }
  }

  /** So no barrier is stuck: from every reachable state of one, in either order, its own
      steps and its turn's end it. */
  lemma {:induction false} BarrierCompletes(s: State) returns (ls: seq<Label>, t: State)
    requires Inv(s) && Queued(s) && !s.stage.NotAsked?
    ensures Reaches(s, ls, t) && Ended(t) && t.asked == s.asked
    decreases Far(s.stage), TurnLeft(s.turn), |s.turnBuffer|, Left(s.stage)
  {
    if Ended(s) {
      return [], s;
    }
    NextAdvances(s);
    StepKeeps(s, Next(s));
    QueuedStep(s, Next(s));
    ls, t := BarrierCompletes(Do(s, Next(s)));
    assert ([Next(s)] + ls)[1..] == ls;
    ls := [Next(s)] + ls;
  }

  lemma EveryBarrierCompletes(before: seq<Label>, s: State) returns (ls: seq<Label>, t: State)
    requires Reaches(Start, before, s) && !s.stage.NotAsked?
    ensures Reaches(s, ls, t) && Ended(t) && t.asked == s.asked
  {
    QueuedRun(Start, before, s);
    ls, t := BarrierCompletes(s);
  }

  /** A fence that took its place in a turn's loop is answered after its flush. */
  lemma AnswersAfterFlush(s: State, l: Label)
    requires Enabled(s, l) && Do(s, l).stage.FirstAnswered? && !s.stage.FirstAnswered?
    ensures (s.stage == FirstTaking(0) && l.AnswerFirst?) || (s.stage.AskingFirst? && FenceGone(s))
  {
  }

  /** A barrier ends only after both fences: with the turn's answered or gone, or with the
      flusher's decided on after it. */
  lemma EndsAfterBoth(s: State, l: Label)
    requires Enabled(s, l) && Ended(Do(s, l)) && !Ended(s)
    ensures Do(s, l).stage.Answered? ==> (s.stage == TurnTaking(0) && l.AnswerTurn?) || (s.stage.AskingTurn? && FenceGone(s))
    ensures Do(s, l).stage.SecondAnswered? ==> s.stage.SecondFlushing? || (s.stage == SecondTaking(0) && !s.turn.NoTurn?)
  {
  }

  // ------------------------------------------------------- the two fence loops

  /** What the turn's fence service leaves when nothing else runs. */
  function TurnServed(dirty: bool, buffer: seq<bool>): bool
    decreases |buffer|
  {
    if buffer == [] then dirty else TurnServed(dirty || buffer[0], buffer[1..])
  }

  lemma {:induction false} TurnServedExactly(dirty: bool, buffer: seq<bool>)
    ensures TurnServed(dirty, buffer) <==> dirty || true in buffer
    decreases |buffer|
  {
    if buffer != [] {
      TurnServedExactly(dirty || buffer[0], buffer[1..]);
      assert buffer == [buffer[0]] + buffer[1..];
    }
  }

  /** One session's main stack with its two subscriptions. */
  class Flusher {
    var ver: nat
    var shown: nat
    var dirty: bool
    var idle: nat
    var turnBuffer: seq<bool>
    var turnActive: bool

    constructor ()
      ensures ver == 0 && shown == 0 && !dirty && idle == 0 && turnBuffer == [] && !turnActive
    {
      ver, shown, dirty, idle, turnBuffer, turnActive := 0, 0, false, 0, [], false;
    }

    method FlushDirty(due: bool)
      modifies this`shown, this`dirty
      ensures shown == (if old(dirty) || due then ver else old(shown)) && !dirty
    {
      if dirty || due {
        shown := ver;
        dirty := false;
      }
    }

    /** The idle fence's service: nothing unseen survives it while no turn runs, and
        with a turn running it only leaves the stack marked. */
    method ServeIdleFence(due: bool)
      modifies this`shown, this`dirty, this`idle
      ensures idle == 0
      ensures !turnActive ==> shown == (if due || old(dirty) || old(idle) > 0 then ver else old(shown)) && !dirty
      ensures turnActive ==> shown == old(shown) && (dirty <==> old(dirty) || old(idle) > 0)
    {
      var n := idle;
      while n > 0
        invariant n == idle && shown == old(shown) && (dirty <==> old(dirty) || n < old(idle)) && n <= old(idle)
      {
        idle := idle - 1;
        dirty := true;
        n := n - 1;
      }
      if !turnActive {
        FlushDirty(due);
      }
    }

    /** The turn fence's service on its own (asked before the idle fence): with no
        wake due it brings an out-of-date client up to date exactly when the stack
        was dirty already or the turn's own buffer held an event it lets through.
        What waits only in the flusher's buffer is not sent. */
    method ServeTurnFence(due: bool)
      modifies this`shown, this`dirty, this`turnBuffer
      ensures turnBuffer == [] && !dirty
      ensures shown == (if due || old(dirty) || true in old(turnBuffer) then ver else old(shown))
    {
      var n := |turnBuffer|;
      while n > 0
        invariant n == |turnBuffer| && shown == old(shown)
        invariant TurnServed(dirty, turnBuffer) == TurnServed(old(dirty), old(turnBuffer))
      {
        dirty := dirty || turnBuffer[0];
        turnBuffer := turnBuffer[1..];
        n := n - 1;
      }
      TurnServedExactly(old(dirty), old(turnBuffer));
      FlushDirty(due);
    }
  }
}
