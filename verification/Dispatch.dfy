/** Dispatching one response's tool calls (internal/agent/execute.go
    executeNativeToolCalls, settleDispatch, executeActions; internal/agent/step.go
    wireCallID).

    Every declared call gets one settled message in declared order, whatever is
    interrupted and however concurrent members interleave.  A call's executor either
    returns one message for that call or an error, which is settled into one. */
module Dispatch {
  import opened Common

  datatype Kind = AgentRun | QuestionAsk | Ordinary
  datatype Call = Call(id: string, kind: Kind)

  /** A tool-role reply carries its call's id; without one it is a user-role text. */
  datatype Message = ToolReply(id: string) | UserText

  // ------------------------------------------------------------- ids on the wire

  predicate Digit(c: char) { '0' <= c <= '9' }

  predicate Digits(s: string) { s != "" && forall k :: 0 <= k < |s| ==> Digit(s[k]) }

  /** The first position at or after i that holds no digit. */
  function SkipDigits(s: string, i: nat): (j: nat)
    requires i <= |s|
    ensures i <= j <= |s| && (forall k :: i <= k < j ==> Digit(s[k])) && (j < |s| ==> !Digit(s[j]))
    decreases |s| - i
  {
    if i < |s| && Digit(s[i]) then SkipDigits(s, i + 1) else i
  }

  /** The pattern ^s\d+-a\d+$, matched left to right. */
  predicate IsEnvelopeId(id: string) {
    id != "" && id[0] == 's'
    && var j := SkipDigits(id, 1);
       j > 1 && j + 2 < |id| && id[j] == '-' && id[j + 1] == 'a' && SkipDigits(id, j + 2) == |id|
  }

  lemma EnvelopeExactly(id: string)
    ensures IsEnvelopeId(id) <==> exists a, b :: Digits(a) && Digits(b) && id == "s" + a + "-a" + b
  {
    if IsEnvelopeId(id) {
      var j := SkipDigits(id, 1);
      var a, b := id[1..j], id[j + 2..];
      assert Digits(a) && Digits(b) && id == "s" + a + "-a" + b;
    }
    if a, b :| Digits(a) && Digits(b) && id == "s" + a + "-a" + b {
      assert id[1..1 + |a|] == a && id[1 + |a|] == '-' && id[3 + |a|..] == b;
      assert forall k :: 1 <= k < 1 + |a| ==> id[k] == a[k - 1];
      assert forall k :: 3 + |a| <= k < |id| ==> id[k] == b[k - 3 - |a|];
      assert SkipDigits(id, 1) == 1 + |a|;
    }
  }

  function Wire(id: string): string { if IsEnvelopeId(id) then "" else id }

  function Reply(c: Call): Message {
    if Wire(c.id) == "" then UserText else ToolReply(c.id)
  }

  /** Exactly when a settled call's reply carries its id: an id the provider chose
      that happens to look like a synthesised one loses it. */
  lemma ReplyKeepsId(c: Call)
    ensures Reply(c) == ToolReply(c.id) <==> c.id != "" && !(exists a, b :: Digits(a) && Digits(b) && c.id == "s" + a + "-a" + b)
  {
    EnvelopeExactly(c.id);
  }

  function Decimal(n: nat): (s: string)
    ensures Digits(s)
  {
    if n < 10 then [('0' as int + n) as char] else Decimal(n / 10) + [('0' as int + n % 10) as char]
  }

  function EnvelopeId(step: nat, i: nat): string { "s" + Decimal(step) + "-a" + Decimal(i) }

  /** No synthesised id ever reaches the wire. */
  lemma EnvelopeIdsStayOff(step: nat, i: nat)
    ensures Reply(Call(EnvelopeId(step, i), Ordinary)) == UserText
  {
    EnvelopeExactly(EnvelopeId(step, i));
  }

  // ---------------------------------------------------------- concurrent members

  datatype Event = Began(k: nat) | Ended(k: nat)

  /** A member: not reached by the spawning loop, its goroutine spawned, its executor
      running, or its slot filled. */
  datatype Phase = Unspawned | Spawned | Running | Filled(reply: Message)

  /** limit is the semaphore's size where there is one; waiting marks the spawning
      loop past its first admission check; over marks the context ended. */
  datatype Batch = Batch(calls: seq<Call>, limit: Option<nat>, next: nat, waiting: bool, phase: seq<Phase>, over: bool, log: seq<Event>)

  datatype Label = Skip | Enter | Take | TakeStopped | Abandon | Begin(k: nat) | End(k: nat) | EndContext

  function Fresh(calls: seq<Call>, limit: Option<nat>): Batch {
    Batch(calls, limit, 0, false, seq(|calls|, _ => Unspawned), false, [])
  }

  function InFlight(phase: seq<Phase>): nat {
    if phase == [] then 0 else (if phase[0].Spawned? || phase[0].Running? then 1 else 0) + InFlight(phase[1..])
  }

  predicate Room(b: Batch) { b.limit.Some? ==> InFlight(b.phase) < b.limit.value }

  predicate Enabled(b: Batch, l: Label) {
    |b.phase| == |b.calls| &&
    match l
    case Skip => b.next < |b.calls| && !b.waiting
    case Enter => b.next < |b.calls| && !b.waiting
    case Take => b.next < |b.calls| && b.waiting && Room(b)
    case TakeStopped => b.next < |b.calls| && b.waiting && b.limit.Some? && Room(b)
    case Abandon => b.next < |b.calls| && b.waiting && b.limit.Some? && b.over
    case Begin(k) => k < |b.calls| && b.phase[k].Spawned?
    case End(k) => k < |b.calls| && b.phase[k].Running?
    case EndContext => !b.over
  }

  function Do(b: Batch, l: Label): Batch
    requires Enabled(b, l)
  {
    match l
    case Skip => b.(phase := b.phase[b.next := Filled(Reply(b.calls[b.next]))], next := b.next + 1)
    case Enter => b.(waiting := true)
    case Take => b.(phase := b.phase[b.next := Spawned], next := b.next + 1, waiting := false)
    case TakeStopped => b.(phase := b.phase[b.next := Filled(Reply(b.calls[b.next]))], next := b.next + 1, waiting := false)
    case Abandon => b.(phase := b.phase[b.next := Filled(Reply(b.calls[b.next]))], next := b.next + 1, waiting := false)
    case Begin(k) => b.(phase := b.phase[k := Running], log := b.log + [Began(k)])
    case End(k) => b.(phase := b.phase[k := Filled(Reply(b.calls[k]))], log := b.log + [Ended(k)])
    case EndContext => b.(over := true)
  }

  predicate Joined(b: Batch) {
    b.next == |b.calls| == |b.phase| && forall k :: 0 <= k < |b.phase| ==> b.phase[k].Filled?
  }

  ghost predicate EndedAfter(log: seq<Event>, p: nat, k: nat) {
    exists r :: p < r < |log| && log[r] == Ended(k)
  }

  ghost predicate LogFits(b: Batch)
    requires |b.phase| == |b.calls|
  {
    && (forall p :: 0 <= p < |b.log| ==> b.log[p].k < |b.calls| && !b.phase[b.log[p].k].Unspawned? && !b.phase[b.log[p].k].Spawned?)
    && (forall p :: 0 <= p < |b.log| && b.log[p].Began? && b.phase[b.log[p].k].Filled? ==> EndedAfter(b.log, p, b.log[p].k))
    && (forall p, q :: 0 <= p < q < |b.log| && b.log[p].Began? ==> b.log[p] != b.log[q])
  }

  ghost predicate Inv(b: Batch) {
    && |b.phase| == |b.calls| && b.next <= |b.calls| && (b.waiting ==> b.next < |b.calls|)
    && (forall k :: 0 <= k < |b.phase| ==> (b.phase[k].Unspawned? <==> b.next <= k))
    && (forall k :: 0 <= k < |b.phase| && b.phase[k].Filled? ==> b.phase[k].reply == Reply(b.calls[k]))
    && (b.limit.Some? ==> InFlight(b.phase) <= b.limit.value)
    && LogFits(b)
  }

  lemma {:induction false} InFlightAt(phase: seq<Phase>, k: nat, x: Phase)
    requires k < |phase|
    ensures InFlight(phase[k := x]) == InFlight(phase) - (if phase[k].Spawned? || phase[k].Running? then 1 else 0)
                                       + (if x.Spawned? || x.Running? then 1 else 0)
  {
    if k > 0 {
      InFlightAt(phase[1..], k - 1, x);
      assert phase[k := x][1..] == phase[1..][k - 1 := x];
    } else {
      assert phase[k := x][1..] == phase[1..];
    }
  }

  lemma {:induction false} FreshIsIdle(phase: seq<Phase>)
    requires forall k :: 0 <= k < |phase| ==> phase[k].Unspawned?
    ensures InFlight(phase) == 0
  {
    if phase != [] {
      FreshIsIdle(phase[1..]);
    }
  }

  lemma FreshInv(calls: seq<Call>, limit: Option<nat>)
    ensures Inv(Fresh(calls, limit))
  {
    FreshIsIdle(Fresh(calls, limit).phase);
  }

  lemma CountKeeps(b: Batch, l: Label)
    requires Inv(b) && Enabled(b, l)
    ensures b.limit.Some? ==> InFlight(Do(b, l).phase) <= b.limit.value
  {
    match l {
      case Skip => InFlightAt(b.phase, b.next, Filled(Reply(b.calls[b.next])));
      case Take => InFlightAt(b.phase, b.next, Spawned);
      case TakeStopped => InFlightAt(b.phase, b.next, Filled(Reply(b.calls[b.next])));
      case Abandon => InFlightAt(b.phase, b.next, Filled(Reply(b.calls[b.next])));
      case Begin(k) => InFlightAt(b.phase, k, Running);
      case End(k) => InFlightAt(b.phase, k, Filled(Reply(b.calls[k])));
      case _ =>
    }
  }

  lemma LogKeeps(b: Batch, l: Label)
    requires Inv(b) && Enabled(b, l)
    ensures LogFits(Do(b, l))
  {
    var t := Do(b, l);
    forall p | 0 <= p < |t.log| && t.log[p].Began? && t.phase[t.log[p].k].Filled?
      ensures EndedAfter(t.log, p, t.log[p].k)
    {
      if l == End(t.log[p].k) {
        assert t.log[|b.log|] == Ended(t.log[p].k);
      } else {
        assert b.phase[b.log[p].k].Filled?;
        var r :| p < r < |b.log| && b.log[r] == Ended(b.log[p].k);
        assert t.log[r] == b.log[r];
      }
    }
  }

  lemma StepKeeps(b: Batch, l: Label)
    requires Inv(b) && Enabled(b, l)
    ensures Inv(Do(b, l)) && Do(b, l).calls == b.calls && Do(b, l).limit == b.limit
  {
    CountKeeps(b, l);
    LogKeeps(b, l);
  }

  ghost predicate Reaches(b: Batch, ls: seq<Label>, t: Batch)
    decreases |ls|
  {
    if ls == [] then b == t else Enabled(b, ls[0]) && Reaches(Do(b, ls[0]), ls[1..], t)
  }

  lemma {:induction false} RunKeeps(b: Batch, ls: seq<Label>, t: Batch)
    requires Inv(b) && Reaches(b, ls, t)
    ensures Inv(t) && t.calls == b.calls && t.limit == b.limit
    decreases |ls|
  {
    if ls != [] {
      StepKeeps(b, ls[0]);
      RunKeeps(Do(b, ls[0]), ls[1..], t);
    }
  }

  /** In every interleaving, a joined batch has one settled reply for each of its calls,
      in order; no executor ran twice, each that began had ended, and at no moment did
      more run than the limit. */
  lemma BatchSettles(calls: seq<Call>, limit: Option<nat>, ls: seq<Label>, t: Batch)
    requires Reaches(Fresh(calls, limit), ls, t)
    ensures limit.Some? ==> InFlight(t.phase) <= limit.value
    ensures forall p, q :: 0 <= p < q < |t.log| && t.log[p].Began? ==> t.log[p] != t.log[q]
    ensures Joined(t) ==> |t.phase| == |calls| && forall k :: 0 <= k < |calls| ==> t.phase[k] == Filled(Reply(calls[k]))
    ensures Joined(t) ==> forall p :: 0 <= p < |t.log| && t.log[p].Began? ==> EndedAfter(t.log, p, t.log[p].k)
  {
    FreshInv(calls, limit);
    RunKeeps(Fresh(calls, limit), ls, t);
  }

  /** Steps left, context end aside. */
  function Work(b: Batch): int { 4 * (|b.calls| - b.next) - (if b.waiting then 1 else 0) + Backlog(b.phase) }

  function Backlog(phase: seq<Phase>): nat {
    if phase == [] then 0 else (if phase[0].Spawned? then 2 else if phase[0].Running? then 1 else 0) + Backlog(phase[1..])
  }

  lemma {:induction false} BacklogAt(phase: seq<Phase>, k: nat, x: Phase)
    requires k < |phase|
    ensures Backlog(phase[k := x]) == Backlog(phase) - (if phase[k].Spawned? then 2 else if phase[k].Running? then 1 else 0)
                                      + (if x.Spawned? then 2 else if x.Running? then 1 else 0)
  {
    if k > 0 {
      BacklogAt(phase[1..], k - 1, x);
      assert phase[k := x][1..] == phase[1..][k - 1 := x];
    } else {
      assert phase[k := x][1..] == phase[1..];
    }
  }

  /** Dispatch terminates: every step but the context's end uses up work. */
  lemma WorkShrinks(b: Batch, l: Label)
    requires Inv(b) && Enabled(b, l) && !l.EndContext?
    ensures 0 <= Work(Do(b, l)) < Work(b)
  {
    match l {
      case Skip => BacklogAt(b.phase, b.next, Filled(Reply(b.calls[b.next])));
      case Enter =>
      case Take => BacklogAt(b.phase, b.next, Spawned);
      case TakeStopped => BacklogAt(b.phase, b.next, Filled(Reply(b.calls[b.next])));
      case Abandon => BacklogAt(b.phase, b.next, Filled(Reply(b.calls[b.next])));
      case Begin(k) => BacklogAt(b.phase, k, Running);
      case End(k) => BacklogAt(b.phase, k, Filled(Reply(b.calls[k])));
    }
  }

  lemma {:induction false} SomeInFlight(phase: seq<Phase>) returns (k: nat)
    requires InFlight(phase) > 0
    ensures k < |phase| && (phase[k].Spawned? || phase[k].Running?)
  {
    if phase[0].Spawned? || phase[0].Running? {
      k := 0;
    } else {
      k := SomeInFlight(phase[1..]);
      k := k + 1;
    }
  }

  lemma {:induction false} NoneInFlight(phase: seq<Phase>, k: nat)
    requires k < |phase| && (phase[k].Spawned? || phase[k].Running?)
    ensures InFlight(phase) > 0
  {
    if k > 0 {
      NoneInFlight(phase[1..], k - 1);
    }
  }

  /** The members in flight give a step to take, and so does room for one more. */
  lemma StepAvailable(b: Batch) returns (l: Label)
    requires Inv(b) && !Joined(b) && !(b.limit == Some(0) && b.waiting && !b.over)
    ensures Enabled(b, l) && !l.EndContext?
  {
    if b.next < |b.calls| && !b.waiting {
      l := Enter;
    } else if b.next < |b.calls| && Room(b) {
      l := Take;
    } else if b.next < |b.calls| && b.limit == Some(0) {
      l := Abandon;
    } else {
      var k: nat;
      if b.next < |b.calls| {
        k := SomeInFlight(b.phase);
      } else {
        k :| k < |b.phase| && !b.phase[k].Filled?;
      }
      l := if b.phase[k].Spawned? then Begin(k) else End(k);
    }
  }

  /** A batch that has not joined can get no further on its own exactly when the
      semaphore has no slot at all and the context has not ended: with room for at
      least one, or with no semaphore, dispatch always progresses. */
  lemma StuckExactly(b: Batch)
    requires Inv(b) && !Joined(b)
    ensures (forall l :: Enabled(b, l) ==> l.EndContext?) <==> b.limit == Some(0) && b.waiting && !b.over
  {
    if b.limit == Some(0) && b.waiting && !b.over {
      forall l | Enabled(b, l)
        ensures l.EndContext?
      {
        if l.Begin? || l.End? { NoneInFlight(b.phase, l.k); }
      }
    } else {
      var l := StepAvailable(b);
    }
  }

  /** A batch of one call with no slot to give: it waits for the context to end. */
  lemma NoSlotsBlocks(c: Call) returns (b: Batch)
    ensures Reaches(Fresh([c], Some(0)), [Enter], b) && !Joined(b)
    ensures forall l :: Enabled(b, l) ==> l.EndContext?
  {
    b := Do(Fresh([c], Some(0)), Enter);
    FreshInv([c], Some(0));
    StepKeeps(Fresh([c], Some(0)), Enter);
    assert [Enter][1..] == [] && Reaches(b, [], b);
    StuckExactly(b);
  }

  // ------------------------------------------------------------ runs of the batch

  /** Each executor that began has ended. */
  ghost predicate Quiet(log: seq<Event>) {
    forall p :: 0 <= p < |log| && log[p].Began? ==> EndedAfter(log, p, log[p].k)
  }

  /** Two executors overlap only where allowed: otherwise the first ends before the
      second begins. */
  ghost predicate Ordered(log: seq<Event>, overlap: (nat, nat) -> bool) {
    forall p, q :: 0 <= p < q < |log| && log[p].Began? && log[q].Began? && !overlap(log[p].k, log[q].k)
      ==> EndedAfter(log[..q], p, log[p].k)
  }

  lemma AppendQuiet(log: seq<Event>, more: seq<Event>)
    requires Quiet(log) && Quiet(more)
    ensures Quiet(log + more)
  {
    forall p | 0 <= p < |log + more| && (log + more)[p].Began?
      ensures EndedAfter(log + more, p, (log + more)[p].k)
    {
      if p < |log| {
        var r :| p < r < |log| && log[r] == Ended(log[p].k);
        assert (log + more)[r] == log[r];
      } else {
        var r :| p - |log| < r < |more| && more[r] == Ended(more[p - |log|].k);
        assert (log + more)[|log| + r] == more[r];
      }
    }
  }

  lemma AppendOrdered(log: seq<Event>, more: seq<Event>, overlap: (nat, nat) -> bool)
    requires Ordered(log, overlap) && Quiet(log) && Ordered(more, overlap)
    ensures Ordered(log + more, overlap)
  {
    var all := log + more;
    forall p, q | 0 <= p < q < |all| && all[p].Began? && all[q].Began? && !overlap(all[p].k, all[q].k)
      ensures EndedAfter(all[..q], p, all[p].k)
    {
      if q < |log| {
        assert all[..q] == log[..q];
      } else if p < |log| {
        var r :| p < r < |log| && log[r] == Ended(log[p].k);
        assert all[..q][r] == log[r];
      } else {
        var i, j := p - |log|, q - |log|;
        var r :| i < r < j && more[..j][r] == Ended(more[i].k);
        assert all[..q][|log| + r] == more[r];
      }
    }
  }

  /** What the admission checks and the context let the spawning loop do: a refused member
      is skipped before or after its slot is taken, any other is launched, and the context
      ends only if it may. */
  predicate Allowed(b: Batch, stopped: nat -> bool, mayEnd: bool, l: Label) {
    match l
    case Skip => stopped(b.next)
    case Enter => !stopped(b.next) || b.limit.Some?
    case Take => !stopped(b.next)
    case TakeStopped => stopped(b.next)
    case EndContext => mayEnd || b.limit == Some(0)
    case _ => true
  }

  predicate Launched(log: seq<Event>, k: nat) { Began(k) in log }

  /** Which executors began so far: of the filled members, those not refused, unless the
      context ended while they waited for a slot. */
  ghost predicate Ran(b: Batch, stopped: nat -> bool, mayEnd: bool) {
    && |b.phase| == |b.calls| && (b.waiting ==> !stopped(b.next) || b.limit.Some?) && (b.over ==> mayEnd || b.limit == Some(0))
    && forall k: nat :: k < |b.phase| ==>
         match b.phase[k]
         case Unspawned => !Launched(b.log, k)
         case Spawned => !Launched(b.log, k) && !stopped(k)
         case Running => Launched(b.log, k) && !stopped(k)
         case Filled(_) => if stopped(k) then !Launched(b.log, k) else Launched(b.log, k) || (b.over && b.limit.Some?)
  }

  lemma RanKeeps(b: Batch, l: Label, stopped: nat -> bool, mayEnd: bool)
    requires Inv(b) && Ran(b, stopped, mayEnd) && Enabled(b, l) && Allowed(b, stopped, mayEnd, l)
    ensures Ran(Do(b, l), stopped, mayEnd)
  {
    var t := Do(b, l);
    if l.Begin? || l.End? {
      forall k: nat | k < |b.phase|
        ensures Launched(t.log, k) <==> Launched(b.log, k) || l == Begin(k)
      {
        assert t.log == b.log + [t.log[|b.log|]];
      }
    }
  }

  /** Some step the batch can take: any that is allowed, or a fixed choice. */
  method Schedule(b: Batch, stopped: nat -> bool, mayEnd: bool) returns (l: Label)
    requires Inv(b) && !Joined(b) && Ran(b, stopped, mayEnd)
    ensures Enabled(b, l) && Allowed(b, stopped, mayEnd, l)
  {
    l := *;
    if Enabled(b, l) && Allowed(b, stopped, mayEnd, l) {
      return;
    }
    if b.next < |b.calls| && !b.waiting {
      return if stopped(b.next) then Skip else Enter;
    }
    if b.next < |b.calls| && Room(b) {
      return if stopped(b.next) then TakeStopped else Take;
    }
    var k := 0;
    while k < |b.phase|
      invariant k <= |b.phase| && forall i :: 0 <= i < k ==> !b.phase[i].Spawned? && !b.phase[i].Running?
    {
      if b.phase[k].Spawned? {
        return Begin(k);
      }
      if b.phase[k].Running? {
        return End(k);
      }
      k := k + 1;
    }
    if b.limit != Some(0) || !b.waiting || b.over {
      ghost var forced := StepAvailable(b);
    }
    l := if b.over then Abandon else EndContext;
  }

  /** One concurrent batch under any schedule, stopped saying whom admission refuses.  A
      refused member's executor never begins; each other's does, unless the context ended
      while it waited for a slot of the semaphore. */
  method RunBatch(calls: seq<Call>, limit: Option<nat>, stopped: nat -> bool, mayEnd: bool) returns (slots: seq<Message>, log: seq<Event>)
    ensures |slots| == |calls| && forall k :: 0 <= k < |calls| ==> slots[k] == Reply(calls[k])
    ensures Quiet(log) && forall p :: 0 <= p < |log| ==> log[p].k < |calls|
    ensures forall k: nat :: k < |calls| && Launched(log, k) ==> !stopped(k)
    ensures limit.None? || (limit.value > 0 && !mayEnd) ==> forall k: nat :: k < |calls| && !stopped(k) ==> Launched(log, k)
  {
    FreshInv(calls, limit);
    var b := Fresh(calls, limit);
    while b.next < |b.calls| || exists k :: 0 <= k < |b.phase| && !b.phase[k].Filled?
      invariant Inv(b) && b.calls == calls && b.limit == limit && 0 <= Work(b) && Ran(b, stopped, mayEnd)
      decreases Work(b) + (if b.over then 0 else 1)
    {
      var l := Schedule(b, stopped, mayEnd);
      StepKeeps(b, l);
      RanKeeps(b, l, stopped, mayEnd);
      if !l.EndContext? { WorkShrinks(b, l); }
      b := Do(b, l);
    }
    slots := seq(|calls|, k requires 0 <= k < |b.phase| && b.phase[k].Filled? => b.phase[k].reply);
    log := b.log;
  }

  function Placed(log: seq<Event>, idx: seq<nat>): (r: seq<Event>)
    requires forall p :: 0 <= p < |log| ==> log[p].k < |idx|
    ensures |r| == |log| && forall p :: 0 <= p < |log| ==> r[p].k == idx[log[p].k] && (r[p].Began? <==> log[p].Began?)
  {
    seq(|log|, p requires 0 <= p < |log| => if log[p].Began? then Began(idx[log[p].k]) else Ended(idx[log[p].k]))
  }

  lemma PlacedQuiet(log: seq<Event>, idx: seq<nat>)
    requires Quiet(log) && forall p :: 0 <= p < |log| ==> log[p].k < |idx|
    ensures Quiet(Placed(log, idx))
  {
    var placed := Placed(log, idx);
    forall p | 0 <= p < |placed| && placed[p].Began?
      ensures EndedAfter(placed, p, placed[p].k)
    {
      var r :| p < r < |log| && log[r] == Ended(log[p].k);
      assert placed[r] == Ended(placed[p].k);
    }
  }

  /** Placing a log says of each member what it said, when no two share a place. */
  lemma PlacedLaunched(log: seq<Event>, idx: seq<nat>, k: nat)
    requires (forall p :: 0 <= p < |log| ==> log[p].k < |idx|) && k < |idx|
    requires forall i :: 0 <= i < |idx| && idx[i] == idx[k] ==> i == k
    ensures Launched(Placed(log, idx), idx[k]) <==> Launched(log, k)
  {
    var placed := Placed(log, idx);
    if Launched(log, k) {
      var p :| 0 <= p < |log| && log[p] == Began(k);
      assert placed[p] == Began(idx[k]);
    }
    if Launched(placed, idx[k]) {
      var p :| 0 <= p < |placed| && placed[p] == Began(idx[k]);
      assert log[p] == Began(k);
    }
  }

  // ------------------------------------------------------------------- native calls

  /** Calls i to j all run sub-agents, one consecutive batch. */
  predicate OneBatch(calls: seq<Call>, i: nat, j: nat) {
    forall k :: (if i <= j then i else j) <= k <= (if i <= j then j else i) && k < |calls| ==> calls[k].kind.AgentRun?
  }

  function MayOverlap(calls: seq<Call>): (nat, nat) -> bool { (i: nat, j: nat) => OneBatch(calls, i, j) }

  /** Executors begin in declared order, except inside one batch. */
  ghost predicate InOrder(log: seq<Event>, overlap: (nat, nat) -> bool) {
    forall p, q :: 0 <= p < q < |log| && !overlap(log[p].k, log[q].k) ==> log[p].k <= log[q].k
  }

  /** A question's own answer keeps its id as given; everything else goes through the
      wire id. */
  predicate Answers(m: Message, c: Call) {
    m == Reply(c) || (c.kind.QuestionAsk? && m == ToolReply(c.id))
  }

  lemma AnswersKeepId(m: Message, c: Call)
    requires Answers(m, c) && c.id != "" && !IsEnvelopeId(c.id)
    ensures m == ToolReply(c.id)
  {
  }

  /** What a call's message is: a question that was put and answered answers under the id
      as given. */
  function Said(c: Call, stopped: bool, answered: bool): (m: Message)
    ensures Answers(m, c)
  {
    if c.kind.QuestionAsk? && !stopped && answered then ToolReply(c.id) else Reply(c)
  }

  method RunOne(c: Call, i: nat, stopped: bool, answered: bool) returns (m: Message, log: seq<Event>)
    ensures m == Said(c, stopped, answered) && log == (if stopped then [] else [Began(i), Ended(i)]) && Quiet(log)
  {
    if stopped {
      return Reply(c), [];
    }
    log := [Began(i), Ended(i)];
    assert log[1] == Ended(i);
    m := if c.kind.QuestionAsk? && answered then ToolReply(c.id) else Reply(c);
  }

  /** A sub-agent run with no other beside it, which is dispatched without a batch and so
      without the batch's own admission check. */
  predicate Lone(calls: seq<Call>, k: nat) {
    k < |calls| && calls[k].kind.AgentRun? && (k > 0 ==> !calls[k - 1].kind.AgentRun?) && (k + 1 < |calls| ==> !calls[k + 1].kind.AgentRun?)
  }

  /** The calls [lo, hi) dispatched: a message each, in order; every executor that began
      has ended, in the order of the calls and apart except inside one batch; and exactly
      the calls not refused at their turn began, with every lone sub-agent run. */
  ghost predicate Dispatched(calls: seq<Call>, stopped: nat -> bool, answered: nat -> bool, lo: nat, hi: nat, msgs: seq<Message>, log: seq<Event>)
    requires hi <= |calls|
  {
    && lo <= hi && |msgs| == hi - lo && (forall k: nat :: lo <= k < hi ==> msgs[k - lo] == Said(calls[k], stopped(k), answered(k)))
    && (forall p :: 0 <= p < |log| ==> lo <= log[p].k < hi)
    && Quiet(log) && Ordered(log, MayOverlap(calls)) && InOrder(log, MayOverlap(calls))
    && (forall k: nat {:trigger Launched(log, k)} :: lo <= k < hi ==> (Launched(log, k) <==> !stopped(k) || Lone(calls, k)))
  }

  lemma LaunchedJoin(log: seq<Event>, more: seq<Event>, k: nat)
    ensures Launched(log + more, k) <==> Launched(log, k) || Launched(more, k)
  {
  }

  lemma InOrderJoin(log: seq<Event>, ran: seq<Event>, overlap: (nat, nat) -> bool, mid: nat)
    requires InOrder(log, overlap) && InOrder(ran, overlap)
    requires (forall p :: 0 <= p < |log| ==> log[p].k < mid) && (forall p :: 0 <= p < |ran| ==> mid <= ran[p].k)
    ensures InOrder(log + ran, overlap)
  {
    forall p, q | 0 <= p < q < |log + ran| && !overlap((log + ran)[p].k, (log + ran)[q].k)
      ensures (log + ran)[p].k <= (log + ran)[q].k
    {
      assert p >= |log| ==> (log + ran)[p] == ran[p - |log|] && (log + ran)[q] == ran[q - |log|];
    }
  }

  lemma MessagesJoin(calls: seq<Call>, stopped: nat -> bool, answered: nat -> bool, lo: nat, mid: nat, hi: nat, msgs: seq<Message>, more: seq<Message>)
    requires lo <= mid <= hi <= |calls| && |msgs| == mid - lo && |more| == hi - mid
    requires forall k: nat :: lo <= k < mid ==> msgs[k - lo] == Said(calls[k], stopped(k), answered(k))
    requires forall k: nat :: mid <= k < hi ==> more[k - mid] == Said(calls[k], stopped(k), answered(k))
    ensures forall k: nat :: lo <= k < hi ==> (msgs + more)[k - lo] == Said(calls[k], stopped(k), answered(k))
  {
  }

  lemma DispatchedJoin(calls: seq<Call>, stopped: nat -> bool, answered: nat -> bool, lo: nat, mid: nat, hi: nat,
                       msgs: seq<Message>, log: seq<Event>, more: seq<Message>, ran: seq<Event>)
    requires mid <= hi <= |calls| && Dispatched(calls, stopped, answered, lo, mid, msgs, log) && Dispatched(calls, stopped, answered, mid, hi, more, ran)
    ensures Dispatched(calls, stopped, answered, lo, hi, msgs + more, log + ran)
  {
    AppendQuiet(log, ran);
    AppendOrdered(log, ran, MayOverlap(calls));
    InOrderJoin(log, ran, MayOverlap(calls), mid);
    MessagesJoin(calls, stopped, answered, lo, mid, hi, msgs, more);
    forall k: nat | lo <= k < hi
      ensures Launched(log + ran, k) <==> !stopped(k) || Lone(calls, k)
    {
      LaunchedJoin(log, ran, k);
    }
  }

  lemma OneDispatched(calls: seq<Call>, stopped: nat -> bool, answered: nat -> bool, i: nat, m: Message, ran: seq<Event>)
    requires i < |calls| && m == Said(calls[i], stopped(i), answered(i))
    requires ran == if stopped(i) && !Lone(calls, i) then [] else [Began(i), Ended(i)]
    ensures Dispatched(calls, stopped, answered, i, i + 1, [m], ran)
  {
    if ran != [] {
      assert ran[0] == Began(i) && ran[1] == Ended(i);
    }
  }

  function Range(lo: nat, hi: nat): seq<nat>
    requires lo <= hi
  {
    seq(hi - lo, k requires 0 <= k => lo + k)
  }

  /** The pending calls [lo, hi), two sub-agent runs or more, as one batch. */
  method RunPending(calls: seq<Call>, lo: nat, hi: nat, stopped: nat -> bool, ghost answered: nat -> bool) returns (replies: seq<Message>, placed: seq<Event>)
    requires lo + 2 <= hi <= |calls| && forall k :: lo <= k < hi ==> calls[k].kind.AgentRun?
    ensures Dispatched(calls, stopped, answered, lo, hi, replies, placed)
  {
    var done;
    replies, done := RunBatch(calls[lo..hi], None, (k: nat) => stopped(lo + k), false);
    placed := Placed(done, Range(lo, hi));
    PlacedQuiet(done, Range(lo, hi));
    forall k: nat | lo <= k < hi
      ensures Launched(placed, k) <==> !stopped(k) || Lone(calls, k)
    {
      assert calls[if k > lo then k - 1 else k + 1].kind.AgentRun?;
      PlacedLaunched(done, Range(lo, hi), k - lo);
      assert Range(lo, hi)[k - lo] == k;
    }
  }

  /** flushRunBatch: the pending calls [lo, hi), all sub-agent runs, as one batch; a
      single one runs alone. */
  method FlushRunBatch(calls: seq<Call>, lo: nat, hi: nat, slots: seq<Message>, log: seq<Event>, stopped: nat -> bool, ghost answered: nat -> bool)
    returns (slots': seq<Message>, log': seq<Event>)
    requires Pending(calls, lo, hi) && (hi < |calls| ==> !calls[hi].kind.AgentRun?) && Dispatched(calls, stopped, answered, 0, lo, slots, log)
    ensures slots <= slots' && Dispatched(calls, stopped, answered, 0, hi, slots', log')
  {
    if lo == hi {
      return slots, log;
    }
    var replies, placed;
    if hi == lo + 1 {
      var m;
      m, placed := RunOne(calls[lo], lo, false, false);
      replies := [m];
      OneDispatched(calls, stopped, answered, lo, m, placed);
    } else {
      replies, placed := RunPending(calls, lo, hi, stopped, answered);
    }
    DispatchedJoin(calls, stopped, answered, 0, lo, hi, slots, log, replies, placed);
    slots', log' := slots + replies, log + placed;
  }

  lemma NoneDispatched(calls: seq<Call>, stopped: nat -> bool, answered: nat -> bool)
    ensures Pending(calls, 0, 0) && Dispatched(calls, stopped, answered, 0, 0, [], [])
  {
  }

  lemma AllDispatched(calls: seq<Call>, stopped: nat -> bool, answered: nat -> bool, msgs: seq<Message>, log: seq<Event>)
    requires Dispatched(calls, stopped, answered, 0, |calls|, msgs, log)
    ensures Quiet(log) && Ordered(log, MayOverlap(calls)) && InOrder(log, MayOverlap(calls))
    ensures forall k: nat {:trigger Launched(log, k)} :: k < |calls| ==> (Launched(log, k) <==> !stopped(k) || Lone(calls, k))
    ensures |msgs| == |calls| && forall k :: 0 <= k < |calls| ==> Answers(msgs[k], calls[k])
    ensures forall k: nat :: k < |calls| ==> msgs[k] == if calls[k].kind.QuestionAsk? && !stopped(k) && answered(k) then ToolReply(calls[k].id) else Reply(calls[k])
  {
    forall k: nat | k < |calls|
      ensures Answers(msgs[k], calls[k])
      ensures msgs[k] == if calls[k].kind.QuestionAsk? && !stopped(k) && answered(k) then ToolReply(calls[k].id) else Reply(calls[k])
    {
      assert msgs[k - 0] == Said(calls[k], stopped(k), answered(k));
    }
  }

  /** The calls [lo, i) are the sub-agent runs since the last other call. */
  predicate Pending(calls: seq<Call>, lo: nat, i: nat) {
    lo <= i <= |calls| && (forall k :: lo <= k < i ==> calls[k].kind.AgentRun?) && (lo > 0 ==> !calls[lo - 1].kind.AgentRun?)
  }

  /** A call that is no sub-agent run: the pending ones first, then this one alone. */
  method RunNext(calls: seq<Call>, lo: nat, i: nat, slots: seq<Message>, log: seq<Event>, stopped: nat -> bool, answered: nat -> bool)
    returns (slots': seq<Message>, log': seq<Event>)
    requires Pending(calls, lo, i) && i < |calls| && !calls[i].kind.AgentRun? && Dispatched(calls, stopped, answered, 0, lo, slots, log)
    ensures Pending(calls, i + 1, i + 1) && Dispatched(calls, stopped, answered, 0, i + 1, slots', log')
  {
    slots', log' := FlushRunBatch(calls, lo, i, slots, log, stopped, answered);
    var m, ran := RunOne(calls[i], i, stopped(i), answered(i));
    OneDispatched(calls, stopped, answered, i, m, ran);
    DispatchedJoin(calls, stopped, answered, 0, i, i + 1, slots', log', [m], ran);
    slots', log' := slots' + [m], log' + ran;
  }

  /** executeNativeToolCalls: whatever is interrupted, exactly one settled message a
      call in declared order, carrying the call's id unless that id looks like a
      synthesised one; two executors overlap only inside one consecutive batch of
      sub-agent runs, so any other call begins after every earlier one ended; and each
      call that is not refused when its turn comes does begin. */
  method ExecuteNativeToolCalls(calls: seq<Call>, stopped: nat -> bool, answered: nat -> bool) returns (msgs: seq<Message>, log: seq<Event>)
    ensures |msgs| == |calls| && forall k :: 0 <= k < |calls| ==> Answers(msgs[k], calls[k])
    ensures Quiet(log) && Ordered(log, MayOverlap(calls)) && InOrder(log, MayOverlap(calls))
    ensures forall k: nat :: k < |calls| ==> msgs[k] == if calls[k].kind.QuestionAsk? && !stopped(k) && answered(k) then ToolReply(calls[k].id) else Reply(calls[k])
    ensures forall k: nat {:trigger Launched(log, k)} :: k < |calls| ==> (Launched(log, k) <==> !stopped(k) || Lone(calls, k))
  {
    msgs, log := [], [];
    NoneDispatched(calls, stopped, answered);
    var lo, i := 0, 0;
    while i < |calls|
      invariant Pending(calls, lo, i)
      invariant Dispatched(calls, stopped, answered, 0, lo, msgs, log)
    {
      if !calls[i].kind.AgentRun? {
        msgs, log := RunNext(calls, lo, i, msgs, log, stopped, answered);
        lo := i + 1;
      }
      i := i + 1;
    }
    msgs, log := FlushRunBatch(calls, lo, i, msgs, log, stopped, answered);
    AllDispatched(calls, stopped, answered, msgs, log);
  }

  /** Two executors that may overlap are sub-agent runs with nothing else between them. */
  lemma OverlapNeedsRuns(calls: seq<Call>, i: nat, j: nat, k: nat)
    requires MayOverlap(calls)(i, j) && i <= k <= j < |calls|
    ensures calls[k].kind.AgentRun?
  {
  }

  // -------------------------------------------------------------------- the actions

  function BothParallel(serial: seq<bool>): (nat, nat) -> bool {
    (i: nat, j: nat) => i < |serial| && j < |serial| && !serial[i] && !serial[j]
  }

  /** The serial ones of the first n actions ran, one at a time, unless refused. */
  ghost predicate RanSerial(serial: seq<bool>, stopped: nat -> bool, n: nat, log: seq<Event>)
    requires n <= |serial|
  {
    && Quiet(log) && Ordered(log, (i: nat, j: nat) => false) && (forall p :: 0 <= p < |log| ==> log[p].k < n && serial[log[p].k])
    && (forall k: nat :: k < n ==> (Launched(log, k) <==> serial[k] && !stopped(k)))
  }

  lemma RanSerialNext(serial: seq<bool>, stopped: nat -> bool, n: nat, log: seq<Event>, ran: seq<Event>)
    requires n < |serial| && RanSerial(serial, stopped, n, log) && Quiet(ran)
    requires ran == if !serial[n] || stopped(n) then [] else [Began(n), Ended(n)]
    ensures RanSerial(serial, stopped, n + 1, log + ran)
  {
    AppendQuiet(log, ran);
    AppendOrdered(log, ran, (i: nat, j: nat) => false);
    assert ran != [] ==> ran[0] == Began(n);
    forall k: nat | k < n + 1
      ensures Launched(log + ran, k) <==> serial[k] && !stopped(k)
    {
      LaunchedJoin(log, ran, k);
    }
  }

  /** Phase 1 of executeActions: the serial actions one at a time, the others noted. */
  method RunSerial(actions: seq<Call>, serial: seq<bool>, stopped: nat -> bool) returns (slots: seq<Option<Message>>, rest: seq<nat>, log: seq<Event>)
    requires |serial| == |actions|
    ensures |slots| == |actions| && forall k :: 0 <= k < |actions| ==> slots[k] == if serial[k] then Some(Reply(actions[k])) else None
    ensures forall k :: 0 <= k < |rest| ==> rest[k] < |actions| && !serial[rest[k]]
    ensures forall k :: 0 <= k < |actions| && !serial[k] ==> k in rest
    ensures forall i, j :: 0 <= i < j < |rest| ==> rest[i] < rest[j]
    ensures Quiet(log) && Ordered(log, (i: nat, j: nat) => false) && forall p :: 0 <= p < |log| ==> log[p].k < |actions| && serial[log[p].k]
    ensures forall k: nat :: k < |actions| ==> (Launched(log, k) <==> serial[k] && !stopped(k))
  {
    slots, rest, log := [], [], [];
    for i := 0 to |actions|
      invariant |slots| == i && forall k :: 0 <= k < i ==> slots[k] == if serial[k] then Some(Reply(actions[k])) else None
      invariant forall k :: 0 <= k < |rest| ==> rest[k] < i && !serial[rest[k]]
      invariant forall k :: 0 <= k < i && !serial[k] ==> k in rest
      invariant forall k, j :: 0 <= k < j < |rest| ==> rest[k] < rest[j]
      invariant RanSerial(serial, stopped, i, log)
    {
      slots := slots + [if serial[i] then Some(Reply(actions[i])) else None];
      var ran := [];
      if serial[i] {
        var _, own := RunOne(actions[i], i, stopped(i), false);
        ran := own;
      } else {
        rest := rest + [i];
      }
      RanSerialNext(serial, stopped, i, log, ran);
      log := log + ran;
    }
  }

  /** Phase 2: the noted actions run together under the semaphore. */
  method RunParallel(actions: seq<Call>, rest: seq<nat>, limit: nat, before: seq<Option<Message>>, stopped: nat -> bool, mayEnd: bool)
    returns (slots: seq<Option<Message>>, log: seq<Event>)
    requires |before| == |actions| && (forall k :: 0 <= k < |rest| ==> rest[k] < |actions|)
    requires forall i, j :: 0 <= i < j < |rest| ==> rest[i] < rest[j]
    ensures |slots| == |actions| && forall k :: 0 <= k < |actions| ==> slots[k] == if k in rest then Some(Reply(actions[k])) else before[k]
    ensures Quiet(log) && forall p :: 0 <= p < |log| ==> log[p].k in rest
    ensures forall k :: k in rest && Launched(log, k) ==> !stopped(k)
    ensures limit > 0 && !mayEnd ==> forall k :: k in rest && !stopped(k) ==> Launched(log, k)
  {
    var replies, ran := RunBatch(seq(|rest|, k requires 0 <= k < |rest| && rest[k] < |actions| => actions[rest[k]]), Some(limit),
                                 (k: nat) => k < |rest| && stopped(rest[k]), mayEnd);
    PlacedQuiet(ran, rest);
    log := Placed(ran, rest);
    forall j: nat | j < |rest|
      ensures Launched(log, rest[j]) <==> Launched(ran, j)
    {
      PlacedLaunched(ran, rest, j);
    }
    slots := before;
    for k := 0 to |rest|
      invariant |slots| == |actions|
      invariant forall i :: 0 <= i < |actions| ==> slots[i] == if i in rest[..k] then Some(Reply(actions[i])) else before[i]
    {
      slots := slots[rest[k] := Some(replies[k])];
      assert rest[..k + 1] == rest[..k] + [rest[k]];
    }
    assert rest[..|rest|] == rest;
  }

  /** executeActions: one settled message an action in declared order, whatever the
      limit and the interleaving; serial tools never overlap anything, and all of them
      go before any parallel one.  No refused action begins; every other one does, unless
      it is parallel and the context may end or the semaphore has no slot. */
  method ExecuteActions(actions: seq<Call>, serial: seq<bool>, limit: nat, stopped: nat -> bool, mayEnd: bool) returns (msgs: seq<Message>, log: seq<Event>)
    requires |serial| == |actions|
    ensures |msgs| == |actions| && forall k :: 0 <= k < |actions| ==> msgs[k] == Reply(actions[k])
    ensures Quiet(log) && Ordered(log, BothParallel(serial))
    ensures forall p, q :: 0 <= p < q < |log| && log[q].k < |serial| && serial[log[q].k] ==> log[p].k < |serial| && serial[log[p].k]
    ensures forall k: nat :: k < |actions| && Launched(log, k) ==> !stopped(k)
    ensures forall k: nat :: k < |actions| && !stopped(k) && (serial[k] || (limit > 0 && !mayEnd)) ==> Launched(log, k)
  {
    var slots, rest, first := RunSerial(actions, serial, stopped);
    assert Ordered(first, BothParallel(serial));
    log := first;
    if |rest| > 0 {
      var second;
      slots, second := RunParallel(actions, rest, limit, slots, stopped, mayEnd);
      AppendQuiet(first, second);
      AppendOrdered(first, second, BothParallel(serial));
      log := first + second;
      assert forall k: nat :: Launched(log, k) <==> Launched(first, k) || Launched(second, k);
    }
    msgs := seq(|actions|, k requires 0 <= k < |slots| && slots[k].Some? => slots[k].value);
  }
}
