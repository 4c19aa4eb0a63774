/** Folding one response stream (internal/agent/chat.go chatOnceAttempt's event loop).

    Steering intent appears at some moment and persists: at is the number of events
    handled before it.  After a thinking loop or a steering abort the loop only
    drains; the provider's channel still has to be emptied. */
module StreamFold {
  import opened Common

  /** sendNow: the turn's own signal; cut: a cancelled or dropped connection. */
  datatype Failure = Failure(sendNow: bool, cut: bool)

  datatype Event = Text(delta: string) | Thinking(delta: string) | Broken(err: Failure)
                 | Done(usage: Option<nat>, calls: seq<nat>, finish: string)

  datatype Result = Complete(text: string, calls: seq<nat>, finish: string)
                  | Partial(text: string, calls: seq<nat>, finish: string)
                  | LoopedResult
                  | SendNow

  datatype Why = Looped | Failed | Steered
  datatype Stop = Stop(i: nat, why: Why)

  // ------------------------------------------------------------- what events mean

  function Texts(events: seq<Event>): string {
    if events == [] then ""
    else Texts(events[..|events| - 1]) + (match events[|events| - 1] { case Text(d) => d case _ => "" })
  }

  function Thoughts(events: seq<Event>): seq<string> {
    if events == [] then []
    else Thoughts(events[..|events| - 1]) + (match events[|events| - 1] { case Thinking(d) => [d] case _ => [] })
  }

  /** The last completion, which replaces what earlier ones reported. */
  function LastDone(events: seq<Event>): (d: Event)
    ensures d.Done?
  {
    if events == [] then Done(None, [], "")
    else if events[|events| - 1].Done? then events[|events| - 1] else LastDone(events[..|events| - 1])
  }

  /** While draining for steering, only a report that is there replaces one. */
  function Kept(usage: Option<nat>, events: seq<Event>): Option<nat> {
    if events == [] then usage
    else match events[|events| - 1] {
           case Done(Some(u), _, _) => Some(u)
           case _ => Kept(usage, events[..|events| - 1])
         }
  }

  /** Whether event i ends the reading of the response, and why. */
  function Halts(events: seq<Event>, i: nat, at: nat, loops: seq<string> -> bool): Option<Why>
    requires i < |events|
  {
    match events[i]
    case Text(_) => None
    case Thinking(_) => if loops(Thoughts(events[..i + 1])) then Some(Looped) else None
    case Broken(e) => if e.sendNow || (at <= i && e.cut) then Some(Steered) else Some(Failed)
    case Done(_, _, _) => if at <= i then Some(Steered) else None
  }

  function FirstStop(events: seq<Event>, n: nat, at: nat, loops: seq<string> -> bool): (s: Option<Stop>)
    requires n <= |events|
    ensures s.Some? ==> s.value.i < n && Halts(events, s.value.i, at, loops) == Some(s.value.why)
    ensures s.Some? ==> forall j :: 0 <= j < s.value.i ==> Halts(events, j, at, loops) == None
    ensures s.None? ==> forall j :: 0 <= j < n ==> Halts(events, j, at, loops) == None
  {
    if n == 0 then None
    else
      var before := FirstStop(events, n - 1, at, loops);
      if before.Some? then before
      else match Halts(events, n - 1, at, loops) { case Some(w) => Some(Stop(n - 1, w)) case None => None }
  }

  /** The response by its first stop; bound marks a watchdog or ceiling that fired. */
  function Expected(events: seq<Event>, at: nat, loops: seq<string> -> bool, bound: bool): Result {
    var d := LastDone(events);
    match FirstStop(events, |events|, at, loops)
    case None =>
      if at <= |events| then SendNow
      else if bound then Partial(Texts(events), d.calls, d.finish)
      else Complete(Texts(events), d.calls, d.finish)
    case Some(Stop(_, Looped)) => LoopedResult
    case Some(Stop(_, Steered)) => SendNow
    case Some(Stop(i, Failed)) => var e := LastDone(events[..i]); Partial(Texts(events[..i]), e.calls, e.finish)
  }

  /** The usage left when the reading ends. */
  function UsageLeft(events: seq<Event>, at: nat, loops: seq<string> -> bool): Option<nat> {
    match FirstStop(events, |events|, at, loops)
    case Some(Stop(i, Steered)) => Kept(LastDone(events[..i]).usage, events[i..])
    case Some(Stop(i, _)) => LastDone(events[..i]).usage
    case None => LastDone(events).usage
  }

  // ------------------------------------------------------------------- the loop

  /** What the loop's variables hold after n events that did not fail. */
  ghost predicate Tracks(events: seq<Event>, n: nat, at: nat, loops: seq<string> -> bool, sb: string, thoughts: seq<string>,
                         last: Event, usage: Option<nat>, looped: bool, steered: bool)
    requires n <= |events|
  {
    match FirstStop(events, n, at, loops)
    case None => !looped && !steered && sb == Texts(events[..n]) && thoughts == Thoughts(events[..n])
                 && last == LastDone(events[..n]) && usage == LastDone(events[..n]).usage
    case Some(Stop(i, Steered)) => !looped && steered && usage == Kept(LastDone(events[..i]).usage, events[i..n])
    case Some(Stop(_, Looped)) => looped && !steered
    case Some(Stop(_, Failed)) => false
  }

  lemma Drained(events: seq<Event>, n: nat, at: nat, loops: seq<string> -> bool, sb: string, thoughts: seq<string>,
                last: Event, usage: Option<nat>)
    requires n < |events| && Tracks(events, n, at, loops, sb, thoughts, last, usage, false, true)
    ensures Tracks(events, n + 1, at, loops, sb, thoughts, last,
                   if events[n].Done? && events[n].usage.Some? then events[n].usage else usage, false, true)
  {
    var i := FirstStop(events, n, at, loops).value.i;
    assert events[i..n + 1][..n - i] == events[i..n];
  }

  /** Reading one event that does not fail the response. */
  lemma Read(events: seq<Event>, n: nat, at: nat, loops: seq<string> -> bool, sb: string, thoughts: seq<string>, last: Event)
    requires n < |events| && last.Done? && Tracks(events, n, at, loops, sb, thoughts, last, last.usage, false, false)
    ensures match events[n] {
      case Text(d) => Tracks(events, n + 1, at, loops, sb + d, thoughts, last, last.usage, false, false)
      case Thinking(d) => Tracks(events, n + 1, at, loops, sb, thoughts + [d], last, last.usage, loops(thoughts + [d]), false)
      case Broken(e) => if e.sendNow || (at <= n && e.cut) then Tracks(events, n + 1, at, loops, sb, thoughts, last, last.usage, false, true)
                        else FirstStop(events, n + 1, at, loops) == Some(Stop(n, Failed))
      case Done(u, _, _) => if at <= n then Tracks(events, n + 1, at, loops, sb, thoughts, last, if u.Some? then u else last.usage, false, true)
                            else Tracks(events, n + 1, at, loops, sb, thoughts, events[n], u, false, false)
    }
  {
    assert events[..n + 1][..n] == events[..n];
    assert events[n..n + 1] == [events[n]];
    assert Kept(last.usage, events[n..n + 1]) == match events[n] { case Done(Some(u), _, _) => Some(u) case _ => last.usage } by {
      assert events[n..n + 1][..0] == [];
    }
  }

  /** chatOnceAttempt's loop over the whole channel and what follows it.  The usage
      reaches the observers only for a complete or an interrupted response. */
  method Fold(events: seq<Event>, at: nat, loops: seq<string> -> bool, bound: bool) returns (r: Result, recorded: Option<nat>)
    ensures r == Expected(events, at, loops, bound)
    ensures recorded == if r.Complete? || r.SendNow? then UsageLeft(events, at, loops) else None
  {
    var sb, thoughts: seq<string>, last := "", [], Done(None, [], "");
    var usage: Option<nat> := None;
    var looped, steeringAbort := false, false;
    assert events[..0] == [];
    for i := 0 to |events|
      invariant last.Done? && (!looped && !steeringAbort ==> usage == last.usage)
      invariant Tracks(events, i, at, loops, sb, thoughts, last, usage, looped, steeringAbort)
    {
      if looped {
      } else if steeringAbort {
        Drained(events, i, at, loops, sb, thoughts, last, usage);
        if events[i].Done? && events[i].usage.Some? {
          usage := events[i].usage;
        }
      } else {
        Read(events, i, at, loops, sb, thoughts, last);
        match events[i] {
          case Text(d) => sb := sb + d;
          case Thinking(d) =>
            thoughts := thoughts + [d];
            looped := loops(thoughts);
          case Broken(e) =>
            if e.sendNow || (at <= i && e.cut) {
              steeringAbort := true;
            } else {
              StopStays(events, i + 1, |events|, at, loops);
              return Partial(sb, last.calls, last.finish), None;
            }
          case Done(u, calls, finish) =>
            if at <= i {
              steeringAbort := true;
              usage := if u.Some? then u else usage;
            } else {
              last, usage := events[i], u;
            }
        }
      }
    }
    assert events[..|events|] == events;
    ghost var stop := FirstStop(events, |events|, at, loops);
    assert stop.Some? ==> events[stop.value.i..|events|] == events[stop.value.i..];
    if looped {
      return LoopedResult, None;
    }
    if !steeringAbort && at > |events| && bound {
      return Partial(sb, last.calls, last.finish), None;
    }
    if steeringAbort || at <= |events| {
      return SendNow, usage;
    }
    return Complete(sb, last.calls, last.finish), usage;
  }

  lemma {:induction false} StopStays(events: seq<Event>, n: nat, m: nat, at: nat, loops: seq<string> -> bool)
    requires n <= m <= |events| && FirstStop(events, n, at, loops).Some?
    ensures FirstStop(events, m, at, loops) == FirstStop(events, n, at, loops)
    decreases m
  {
    if n < m {
      StopStays(events, n, m - 1, at, loops);
    }
  }

  lemma {:induction false} StopOfPrefix(events: seq<Event>, more: seq<Event>, n: nat, at: nat, loops: seq<string> -> bool)
    requires n <= |events|
    ensures FirstStop(events + more, n, at, loops) == FirstStop(events, n, at, loops)
  {
    if n > 0 {
      StopOfPrefix(events, more, n - 1, at, loops);
      assert (events + more)[..n] == events[..n];
    }
  }

  /** After an abort or a failure nothing later changes the response. */
  lemma NothingAfterStop(events: seq<Event>, more: seq<Event>, other: seq<Event>, at: nat, loops: seq<string> -> bool, bound: bool)
    requires FirstStop(events, |events|, at, loops).Some?
    ensures Expected(events + more, at, loops, bound) == Expected(events + other, at, loops, bound)
  {
    StopOfPrefix(events, more, |events|, at, loops);
    StopOfPrefix(events, other, |events|, at, loops);
    StopStays(events + more, |events|, |events + more|, at, loops);
    StopStays(events + other, |events|, |events + other|, at, loops);
    var i := FirstStop(events, |events|, at, loops).value.i;
    assert (events + more)[..i] == events[..i] && (events + other)[..i] == events[..i];
  }

  /** A response is accepted exactly when nothing interrupted it, and then it is every
      text in order with the calls of the last completion. */
  lemma CompleteExactly(events: seq<Event>, at: nat, loops: seq<string> -> bool, bound: bool)
    ensures Expected(events, at, loops, bound).Complete?
       <==> at > |events| && !bound && forall i :: 0 <= i < |events| ==> Halts(events, i, at, loops) == None
    ensures Expected(events, at, loops, bound).Complete?
        ==> Expected(events, at, loops, bound) == Complete(Texts(events), LastDone(events).calls, LastDone(events).finish)
  {
    var s := FirstStop(events, |events|, at, loops);
    assert s.Some? ==> Halts(events, s.value.i, at, loops) != None;
  }

  /** A stream that fails at event i returns, as a partial response, exactly what a stream
      that ended there would have been accepted with. */
  lemma FailureKeepsWhatCame(events: seq<Event>, at: nat, loops: seq<string> -> bool, bound: bool, i: nat)
    requires FirstStop(events, |events|, at, loops) == Some(Stop(i, Failed))
    ensures var whole := Expected(events[..i], |events| + 1, loops, false);
      whole.Complete? && Expected(events, at, loops, bound) == Partial(whole.text, whole.calls, whole.finish)
  {
    var front, late := events[..i], |events| + 1;
    forall j | 0 <= j < i ensures Halts(front, j, late, loops) == None {
      assert Halts(events, j, at, loops) == None;
      assert front[..j + 1] == events[..j + 1];
    }
    CompleteExactly(front, late, loops, false);
  }

  /** A watchdog or a ceiling that fired makes an accepted response partial, no less. */
  lemma BoundKeepsWhatCame(events: seq<Event>, at: nat, loops: seq<string> -> bool)
    ensures var whole := Expected(events, at, loops, false);
      Expected(events, at, loops, true) == if whole.Complete? then Partial(whole.text, whole.calls, whole.finish) else whole
  {
  }

  /** What halts the reading: a thinking loop, the turn's own signal, a connection cut
      after the steering appeared, any other failure, or a completion after it. */
  lemma HaltsExactly(events: seq<Event>, i: nat, at: nat, loops: seq<string> -> bool)
    requires i < |events|
    ensures Halts(events, i, at, loops) == Some(Looped) <==> events[i].Thinking? && loops(Thoughts(events[..i + 1]))
    ensures Halts(events, i, at, loops) == Some(Steered)
       <==> (events[i].Broken? && events[i].err.sendNow) || (at <= i && ((events[i].Broken? && events[i].err.cut) || events[i].Done?))
    ensures Halts(events, i, at, loops) == Some(Failed) <==> events[i].Broken? && !events[i].err.sendNow && (i < at || !events[i].err.cut)
  {
  }

  /** A response interrupted by steering is never accepted, nor any part of it. */
  lemma SteeredIsSendNow(events: seq<Event>, at: nat, loops: seq<string> -> bool, bound: bool)
    ensures Expected(events, at, loops, bound).SendNow?
       <==> match FirstStop(events, |events|, at, loops) { case None => at <= |events| case Some(s) => s.why == Steered }
  {
  }

  /** Only a text delta is text, and only a thinking delta a thought. */
  lemma OnlyTextCounts(e: Event)
    ensures Texts([e]) == (if e.Text? then e.delta else "") && Thoughts([e]) == if e.Thinking? then [e.delta] else []
  {
    assert [e][..0] == [];
  }

  /** The text of a response is its deltas in order. */
  lemma {:induction false} TextsJoin(a: seq<Event>, b: seq<Event>)
    ensures Texts(a + b) == Texts(a) + Texts(b)
  {
    if b == [] {
      assert a + b == a;
    } else {
      var n := |b| - 1;
      TextsJoin(a, b[..n]);
      assert (a + b)[..|a| + n] == a + b[..n] && (a + b)[|a| + n] == b[n];
      Associate(Texts(a), Texts(b[..n]), if b[n].Text? then b[n].delta else "");
    }
  }

  lemma Associate(a: string, b: string, c: string)
    ensures a + (b + c) == (a + b) + c
  {
  }

  lemma {:induction false} LastDoneIs(events: seq<Event>, k: nat)
    requires k < |events| && events[k].Done? && forall j :: k < j < |events| ==> !events[j].Done?
    ensures LastDone(events) == events[k]
    decreases |events|
  {
    if k < |events| - 1 {
      LastDoneIs(events[..|events| - 1], k);
    }
  }

  lemma {:induction false} KeptExactly(usage: Option<nat>, events: seq<Event>)
    ensures Kept(usage, events).None? <==> usage.None? && forall k :: 0 <= k < |events| && events[k].Done? ==> events[k].usage.None?
  {
    if events != [] {
      var n := |events| - 1;
      KeptExactly(usage, events[..n]);
      if !(events[n].Done? && events[n].usage.Some?) {
        assert forall k :: 0 <= k < n ==> events[..n][k] == events[k];
      }
    }
  }

  /** A steering abort at i loses the usage only if the last completion before it
      reported none and no later one reported any. */
  lemma SteeringKeepsUsage(events: seq<Event>, at: nat, loops: seq<string> -> bool, i: nat)
    requires FirstStop(events, |events|, at, loops) == Some(Stop(i, Steered))
    ensures UsageLeft(events, at, loops).None?
       <==> LastDone(events[..i]).usage.None? && forall k :: i <= k < |events| && events[k].Done? ==> events[k].usage.None?
  {
    KeptExactly(LastDone(events[..i]).usage, events[i..]);
    assert forall k :: i <= k < |events| ==> events[k] == events[i..][k - i];
  }

  lemma {:induction false} LastReportKept(events: seq<Event>)
    requires LastDone(events).usage.Some?
    ensures Kept(None, events) == LastDone(events).usage
  {
    if !events[|events| - 1].Done? {
      LastReportKept(events[..|events| - 1]);
    }
  }

  /** Outside an abort the last completion decides: the usage left is the last one any
      completion reported if and only if the last completion reported one, or none did. */
  lemma CompletionKeepsUsage(events: seq<Event>, at: nat, loops: seq<string> -> bool)
    requires FirstStop(events, |events|, at, loops).None?
    ensures UsageLeft(events, at, loops) == Kept(None, events) <==> LastDone(events).usage.Some? || Kept(None, events).None?
  {
    if LastDone(events).usage.Some? {
      LastReportKept(events);
    }
  }

  /** So an accepted completion without a report wipes an earlier one. */
  lemma AcceptedNilWipes(u: nat, loops: seq<string> -> bool)
    ensures var events := [Done(Some(u), [], ""), Done(None, [], "")];
      Expected(events, 3, loops, false).Complete? && UsageLeft(events, 3, loops) == None
  {
    var events := [Done(Some(u), [], ""), Done(None, [], "")];
    CompleteExactly(events, 3, loops, false);
    assert events[..1] == [Done(Some(u), [], "")];
    assert FirstStop(events, 2, 3, loops) == None;
  }
}
