/** One logical model call (internal/agent/chat.go chatRetryLadder,
    waitForConnectivity, chatOnce and the error classifiers).

    The provider, the clock and steering are a World answering step by step; times
    are milliseconds.  The log records every request's end and every sleep. */
module RetryLadder {
  import opened Common

  const DEFAULT_MAX_WAIT := 120000
  const MAX_BACKOFF := 10000
  const THINKING_LOOP_RETRIES := 1

  /** What an error's chain holds. */
  datatype Err = Err(network: bool, deadline: bool, canceled: bool, ceiling: bool, thinkingLoop: bool,
                     sendNow: bool, status: Option<nat>, oversize: bool, classified: bool)

  datatype Reply = Accepted(text: string) | Broken(text: string, err: Err)

  datatype World = World(reply: nat -> Reply, took: nat -> nat, steering: nat -> bool, contextDone: nat -> bool, woken: nat -> Option<Err>)

  /** tried: one chatOnce, on the ladder or while reconnecting, with how its error was
      judged; slept: a wait that ran its full length. */
  datatype Event = Tried(text: string, failed: bool, reconnecting: bool, hopeless: bool) | Slept(ms: nat, reconnecting: bool)

  datatype Result = Success(text: string) | SendNow | Failure(best: string, err: Err)

  function Backoff(attempt: nat): nat {
    if attempt == 0 then 1000 else if attempt == 1 then 2000 else if attempt == 2 then 5000 else MAX_BACKOFF
  }

  function EffectiveMaxWait(configured: int): (r: int)
    ensures r > 0
  {
    if configured > 0 then configured else DEFAULT_MAX_WAIT
  }

  predicate ReconnectEligible(e: Err, contextDone: bool) { !e.ceiling && (e.network || (e.deadline && !contextDone)) }

  predicate Retryable(e: Err) {
    !e.thinkingLoop && !e.canceled && !e.deadline && !e.ceiling
    && !(e.status.Some? && 400 <= e.status.value < 500 && e.status.value != 429)
  }

  function Classify(e: Err): Err { e.(classified := e.classified || e.oversize) }

  predicate SteeringCancel(e: Err, steering: bool) { steering && (e.sendNow || e.canceled) }

  predicate SteeringAborted(e: Err, steering: bool) { e.sendNow || SteeringCancel(e, steering) || (steering && e.network) }

  predicate Unclassified(e: Err) { !e.classified }

  /** Errors arrive as the provider and the context give them. */
  ghost predicate Raw(w: World) {
    (forall n :: w.reply(n).Broken? ==> Unclassified(w.reply(n).err)) && (forall n :: w.woken(n).Some? ==> Unclassified(w.woken(n).value) && !w.woken(n).value.oversize)
  }

  /** Whether an oversized prompt is named as such depends on who failed last. */
  predicate Labels(log: seq<Event>, e: Err) {
    log != [] && (log[|log| - 1].Tried? ==> if log[|log| - 1].reconnecting then !e.classified else e.classified == e.oversize)
  }

  predicate Looped(r: Reply) { r.Broken? && r.err.thinkingLoop }

  /** A second thinking loop leaves no fragment. */
  function Unlooped(r: Reply): Reply { if Looped(r) then Broken("", r.err) else r }

  function Pow2(n: nat): nat { if n == 0 then 1 else 2 * Pow2(n - 1) }

  /** What one chatOnce started at step n answers, and how many requests it sends. */
  function Once(w: World, n: nat): Reply { if Looped(w.reply(n)) then Unlooped(w.reply(n + 1)) else w.reply(n) }
  function Sends(w: World, n: nat): nat { if Looped(w.reply(n)) then 2 else 1 }

  predicate SteeredAt(w: World, k: int) { k >= 0 && w.steering(k) }
  predicate WokenAt(w: World, k: int) { k >= 0 && w.woken(k).Some? }
  predicate SendNowAt(w: World, k: int) { k >= 0 && w.reply(k).Broken? && w.reply(k).err.sendNow }

  /** Why a call may fail before its tries are used up: the last error was hopeless, the
      reconnect budget ran out after a wait, the user interrupted, or a wait was cut. */
  predicate GaveUp(w: World, log: seq<Event>, step: int) {
    log != [] && ((log[|log| - 1].Tried? && log[|log| - 1].hopeless) || (log[|log| - 1].Slept? && log[|log| - 1].reconnecting)
                  || SteeredAt(w, step - 1) || WokenAt(w, step - 2) || WokenAt(w, step - 3))
  }

  /** Why a reconnect wait ends: with the answer it waited for, cut short or interrupted,
      its budget spent after a backoff, or by an answer that is no dropped connection. */
  predicate WaitOver(w: World, log: seq<Event>, step: int, now: int, end: int, r: Result) {
    match r
    case Success(text) => log != [] && log[|log| - 1] == Tried(text, false, true, false)
    case SendNow => SteeredAt(w, step - 1) || SendNowAt(w, step - 3)
    case Failure(_, err) =>
      || WokenAt(w, step - 2)
      || (log != [] && log[|log| - 1].Slept? && log[|log| - 1].reconnecting && end <= now)
      || (log != [] && log[|log| - 1].Tried? && log[|log| - 1].reconnecting && (err.ceiling || !err.network)
          && (log[|log| - 1].hopeless || Retryable(err)))
  }

  /** Why a call may end as interrupted: the user asked, or the last reply said so. */
  predicate Interrupted(w: World, step: int) {
    SteeredAt(w, step - 1) || SteeredAt(w, step - 2) || SendNowAt(w, step - 3) || SendNowAt(w, step - 4)
  }

  /** A provider's hiccup: none of the ways a request ends for good, and no status that
      blames the request. */
  predicate Transient(e: Err) {
    !e.network && !e.deadline && !e.canceled && !e.ceiling && !e.thinkingLoop && !e.sendNow
    && (e.status.Some? ==> e.status.value < 400 || e.status.value == 429 || e.status.value >= 500)
  }

  /** The provider refused the request itself. */
  predicate Rejected(e: Err) {
    !e.network && !e.deadline && !e.sendNow && e.status.Some? && 400 <= e.status.value < 500 && e.status.value != 429
  }

  /** The connection dropped, or timed out while the call itself had time left. */
  predicate Dropped(e: Err, contextDone: bool) { !e.ceiling && !e.sendNow && (e.network || (e.deadline && !contextDone)) }

  /** The call was cancelled, ran out of its own time or of its ceiling, or looped twice. */
  predicate EndOfCall(e: Err, contextDone: bool) {
    !e.sendNow && (e.ceiling || (!e.network && ((e.deadline && contextDone) || (!e.deadline && (e.canceled || e.thinkingLoop)))))
  }

  /** The waits of a reconnect: one second, two, five, and ten from then on. */
  lemma BackoffTable(n: nat)
    ensures Backoff(n) == match n { case 0 => 1000 case 1 => 2000 case 2 => 5000 case _ => 10000 }
    ensures n + 1 <= |Backoffs(n + 1)| && Backoffs(n + 1)[n] == Backoff(n)
  {
    BackoffsLength(n);
  }

  lemma {:induction false} BackoffsLength(n: nat)
    ensures |Backoffs(n)| == n
  {
    if n > 0 {
      BackoffsLength(n - 1);
    }
  }

  /** What one rung does with its first reply.  An accepted one is the answer.  A request
      the user cut short ends the call as interrupted.  Otherwise a hiccup is worth another
      rung, a refusal or the end of the call's own time is not, and a connection that
      dropped or timed out is waited for and the request sent again. */
  predicate FirstReply(w: World, n: nat, step: nat, maxWait: int, before: seq<Event>, log: seq<Event>, stop: Option<Result>) {
    var first, a := Once(w, n), n + Sends(w, n) + 1;
    if first.Accepted? then stop == Some(Success(first.text)) && log == before + [Tried(first.text, false, false, false)]
    else if first.err.sendNow || (w.steering(a) && (first.err.canceled || first.err.network)) then stop == Some(SendNow) && |log| == |before| + 1
    else if Transient(first.err) then stop.None? && step == a + 1 && log == before + [Tried(first.text, true, false, false)]
    else if Rejected(first.err) || EndOfCall(first.err, w.contextDone(a - 1))
    then (stop.Some? && stop.value.Failure?) && log == before + [Tried(first.text, true, false, true)]
    else DropDecides(w, n, maxWait, before, log, stop)
  }

  /** A connection that dropped: after a full second the request is sent again, and is the
      answer when it is accepted, unless that second already was the whole budget. */
  predicate DropDecides(w: World, n: nat, maxWait: int, before: seq<Event>, log: seq<Event>, stop: Option<Result>) {
    var first, a := Once(w, n), n + Sends(w, n) + 1;
    first.Broken? && Dropped(first.err, w.contextDone(a - 1)) && !first.err.canceled && !w.steering(a) && w.woken(a + 1).None? ==>
      if maxWait <= 1000 then stop.Some? && stop.value.Failure? && log == before + [Tried(first.text, true, false, false), Slept(1000, true)]
      else Once(w, a + 2).Accepted?
           ==> stop == Some(Success(Once(w, a + 2).text))
               && log == before + [Tried(first.text, true, false, false), Slept(1000, true), Tried(Once(w, a + 2).text, false, true, false)]
  }

  /** The request at position k of the log answered so. */
  predicate Tries(log: seq<Event>, k: nat, r: Reply) {
    k < |log| && log[k].Tried? && !log[k].reconnecting && log[k].text == r.text && log[k].failed == r.Broken?
  }

  /** The call of step n meets a hiccup, and nobody interrupts it or the wait after it. */
  predicate HiccupAt(w: World, n: nat) {
    var a := n + Sends(w, n) + 1;
    Once(w, n).Broken? && Transient(Once(w, n).err) && !w.steering(a) && !w.steering(a + 1) && w.woken(a + 2).None?
  }

  /** A failed request and the i-th backoff follow before. */
  predicate Hiccuped(w: World, n: nat, i: nat, before: seq<Event>, log: seq<Event>) {
    |before| + 2 <= |log| && log[|before|] == Tried(Once(w, n).text, true, false, false) && log[|before| + 1] == Slept(50 * Pow2(i), false)
  }

  /** After a first hiccup the call slept 50 ms and sent a second request, whose text is the
      answer when it is accepted. */
  predicate SecondDecides(w: World, n: nat, before: seq<Event>, log: seq<Event>, r: Result) {
    var second := Once(w, n + Sends(w, n) + 4);
    && Hiccuped(w, n, 0, before, log)
    && Tries(log, |before| + 2, second)
    && (second.Accepted? ==> r == Success(second.text) && |log| == |before| + 3)
  }

  /** After a first hiccup: the backoff is over, and past the second rung the request was
      sent again and failed again. */
  predicate Resent(w: World, n: nat, before: seq<Event>, log: seq<Event>, step: nat, rungs: nat) {
    && Hiccuped(w, n, 0, before, log)
    && (if rungs == 1 then |log| == |before| + 2 && step == n + Sends(w, n) + 4
        else Tries(log, |before| + 2, Once(w, n + Sends(w, n) + 4)) && Once(w, n + Sends(w, n) + 4).Broken?)
  }

  /** The first n backoffs of the ladder together. */
  function Naps(n: nat): nat { if n == 0 then 0 else Naps(n - 1) + 50 * Pow2(n - 1) }

  /** How a call ends: with the text of the reply just accepted, interrupted for a reason,
      or with the longest fragment and, unless its tries are used up, a reason to stop. */
  predicate Ends(w: World, log: seq<Event>, from: nat, step: nat, spent: bool, r: Result) {
    match r
    case Success(text) => log != [] && log[|log| - 1].Tried? && !log[|log| - 1].failed && log[|log| - 1].text == text
    case SendNow => Interrupted(w, step)
    case Failure(best, err) => Longest(log, from) == best && Labels(log, err) && (spent || GaveUp(w, log, step))
  }

  // -------------------------------------------------------------- what a log shows

  function LadderTries(log: seq<Event>): nat {
    if log == [] then 0
    else LadderTries(log[..|log| - 1]) + (if log[|log| - 1].Tried? && !log[|log| - 1].reconnecting then 1 else 0)
  }

  function LadderSleep(log: seq<Event>): nat {
    if log == [] then 0
    else LadderSleep(log[..|log| - 1]) + (if log[|log| - 1].Slept? && !log[|log| - 1].reconnecting then log[|log| - 1].ms else 0)
  }

  /** The longest fragment any failed request has returned since position from, the
      first of equals. */
  function Longest(log: seq<Event>, from: nat): string {
    if |log| <= from then ""
    else var last, rest := log[|log| - 1], Longest(log[..|log| - 1], from);
         if last.Tried? && last.failed && |last.text| > |rest| then last.text else rest
  }

  /** How many errors since from were neither worth reconnecting nor retrying. */
  function Hopeless(log: seq<Event>, from: nat): nat {
    if |log| <= from then 0
    else Hopeless(log[..|log| - 1], from) + (if log[|log| - 1].Tried? && log[|log| - 1].hopeless then 1 else 0)
  }

  /** The reconnect waits since from, in order. */
  function Waits(log: seq<Event>, from: nat): seq<nat> {
    if |log| <= from then []
    else Waits(log[..|log| - 1], from) + (if log[|log| - 1].Slept? && log[|log| - 1].reconnecting then [log[|log| - 1].ms] else [])
  }

  function Backoffs(n: nat): seq<nat> { if n == 0 then [] else Backoffs(n - 1) + [Backoff(n - 1)] }

  /** b goes on from a without a request or a wait of the ladder's own. */
  predicate OffLadder(a: seq<Event>, b: seq<Event>) {
    a <= b && LadderTries(b) == LadderTries(a) && LadderSleep(b) == LadderSleep(a)
  }

  /** b goes on from a by so many tries and the first doubling backoffs. */
  predicate Paced(a: seq<Event>, b: seq<Event>, tries: nat, pauses: nat) {
    a <= b && LadderTries(b) == LadderTries(a) + tries && LadderSleep(b) == LadderSleep(a) + Naps(pauses)
  }

  lemma WaitsStep(log: seq<Event>, e: Event, from: nat)
    requires from <= |log|
    ensures Waits(log + [e], from) == Waits(log, from) + (if e.Slept? && e.reconnecting then [e.ms] else [])
  {
    assert (log + [e])[..|log|] == log;
  }

  /** Nothing was sent or waited for after a hopeless error. */
  predicate StopsAtHopeless(log: seq<Event>, from: nat) {
    |log| > from ==> Hopeless(log[..|log| - 1], from) == 0
  }

  lemma LogStep(log: seq<Event>, e: Event, from: nat)
    requires from <= |log|
    ensures LadderTries(log + [e]) == LadderTries(log) + (if e.Tried? && !e.reconnecting then 1 else 0)
    ensures LadderSleep(log + [e]) == LadderSleep(log) + (if e.Slept? && !e.reconnecting then e.ms else 0)
    ensures Longest(log + [e], from) == if e.Tried? && e.failed && |e.text| > |Longest(log, from)| then e.text else Longest(log, from)
    ensures Hopeless(log + [e], from) == Hopeless(log, from) + (if e.Tried? && e.hopeless then 1 else 0)
    ensures Hopeless(log, from) == 0 ==> StopsAtHopeless(log + [e], from)
  {
    assert (log + [e])[..|log|] == log;
  }

  lemma {:induction false} LongestCovers(log: seq<Event>, from: nat, k: nat)
    requires from <= k < |log| && log[k].Tried? && log[k].failed
    ensures |log[k].text| <= |Longest(log, from)|
    decreases |log|
  {
    if k < |log| - 1 {
      LongestCovers(log[..|log| - 1], from, k);
    }
  }

  /** The salvage is nothing but a fragment, unaltered. */
  lemma {:induction false} LongestIsOne(log: seq<Event>, from: nat) returns (k: nat)
    ensures Longest(log, from) != "" ==> from <= k < |log| && log[k].Tried? && log[k].failed && log[k].text == Longest(log, from)
    decreases |log|
  {
    k := 0;
    if |log| > from {
      if Longest(log, from) == Longest(log[..|log| - 1], from) {
        k := LongestIsOne(log[..|log| - 1], from);
      } else {
        k := |log| - 1;
      }
    }
  }

  lemma {:induction false} HopelessCounts(log: seq<Event>, from: nat, k: nat)
    requires from <= k < |log| && log[k].Tried? && log[k].hopeless
    ensures Hopeless(log, from) > 0
    decreases |log|
  {
    if k < |log| - 1 {
      HopelessCounts(log[..|log| - 1], from, k);
    }
  }

  /** Read pointwise: a hopeless error is the last thing in the log. */
  lemma HopelessIsLast(log: seq<Event>, from: nat, k: nat)
    requires StopsAtHopeless(log, from) && from <= k < |log| && log[k].Tried? && log[k].hopeless
    ensures k == |log| - 1
  {
    if k < |log| - 1 {
      HopelessCounts(log[..|log| - 1], from, k);
    }
  }

  class Caller {
    const world: World
    var step: nat
    var now: int
    var log: seq<Event>

    constructor (w: World)
      ensures world == w && step == 0 && now == 0 && log == []
    {
      world, step, now, log := w, 0, 0, [];
    }

    /** One request; a limit bounds how long it may take. */
    method Send(limit: Option<nat>) returns (r: Reply)
      modifies this`step, this`now
      ensures Raw(world) && r.Broken? ==> Unclassified(r.err)
      ensures step == old(step) + 1
      ensures r == world.reply(old(step)) && old(now) <= now && (limit.Some? ==> now <= old(now) + limit.value)
    {
      r := world.reply(step);
      var took := world.took(step);
      now := now + if limit.Some? && took > limit.value then limit.value else took;
      step := step + 1;
    }

    /** chatOnce: only a thinking loop is resent, once, with a nudge; a second one fails
        the call and its fragment is dropped. */
    method ChatOnce(limit: Option<nat>) returns (r: Reply)
      modifies this`step, this`now
      ensures old(now) <= now && (limit.Some? ==> now <= old(now) + limit.value)
      ensures Looped(world.reply(old(step))) ==> step == old(step) + 2 && r == Unlooped(world.reply(old(step) + 1))
      ensures !Looped(world.reply(old(step))) ==> step == old(step) + 1 && r == world.reply(old(step))
      ensures r == Once(world, old(step)) && step == old(step) + Sends(world, old(step))
      ensures Raw(world) && r.Broken? ==> Unclassified(r.err)
    {
      ghost var start, first := now, step;
      var left := limit;
      var attempt := 0;
      r := Accepted("");
      while attempt <= THINKING_LOOP_RETRIES
        invariant attempt <= THINKING_LOOP_RETRIES + 1 && start <= now
        invariant limit.Some? <==> left.Some?
        invariant limit.Some? ==> now + left.value == start + limit.value
        invariant step == first + attempt && (attempt > 0 ==> Looped(world.reply(first)) && Looped(r) && r == world.reply(step - 1))
        invariant attempt > 0 && Raw(world) ==> Unclassified(r.err)
      {
        var before := now;
        r := Send(left);
        left := if left.Some? then Some(left.value - (now - before)) else None;
        if r.Accepted? || !r.err.thinkingLoop {
          return;
        }
        attempt := attempt + 1;
      }
      r := Broken("", r.err);
    }

    method Steering() returns (requested: bool)
      modifies this`step
      ensures requested == world.steering(old(step)) && step == old(step) + 1
    {
      requested := world.steering(step);
      step := step + 1;
    }

    /** sleepCtx: the full wait, or the context's error earlier. */
    method Sleep(ms: nat, reconnecting: bool, ghost from: nat) returns (woken: Option<Err>)
      requires from <= |log|
      modifies this`step, this`now, this`log
      ensures woken == world.woken(old(step)) && step == old(step) + 1
      ensures Raw(world) && woken.Some? ==> Unclassified(woken.value) && !woken.value.oversize
      ensures woken.None? ==> now == old(now) + ms && log == old(log) + [Slept(ms, reconnecting)]
      ensures woken.Some? ==> old(now) <= now <= old(now) + ms && log == old(log)
      ensures LadderTries(log) == LadderTries(old(log))
      ensures LadderSleep(log) == LadderSleep(old(log)) + (if woken.None? && !reconnecting then ms else 0)
      ensures Longest(log, from) == Longest(old(log), from) && Hopeless(log, from) == Hopeless(old(log), from)
      ensures Hopeless(old(log), from) == 0 && woken.None? ==> StopsAtHopeless(log, from)
    {
      woken := world.woken(step);
      step := step + 1;
      if woken.None? {
        LogStep(log, Slept(ms, reconnecting), from);
        now := now + ms;
        log := log + [Slept(ms, reconnecting)];
      }
    }

    /** One chatOnce and what it left in the log. */
    method Attempt(limit: Option<nat>, reconnecting: bool, ghost from: nat) returns (r: Reply, eligible: bool)
      requires from <= |log|
      modifies this`step, this`now, this`log
      ensures old(now) <= now && (limit.Some? ==> now <= old(now) + limit.value)
      ensures r == Once(world, old(step)) && step == old(step) + Sends(world, old(step)) + 1
      ensures eligible == (r.Broken? && ReconnectEligible(r.err, world.contextDone(step - 1)))
      ensures r.Accepted? ==> log == old(log) + [Tried(r.text, false, reconnecting, false)]
      ensures r.Broken? ==> log == old(log) + [Tried(r.text, true, reconnecting, !eligible && !Retryable(r.err))]
      ensures Raw(world) && r.Broken? ==> Unclassified(r.err)
      ensures r.Broken? && eligible ==> !r.err.ceiling && (r.err.network || r.err.deadline)
      ensures LadderTries(log) == LadderTries(old(log)) + (if reconnecting then 0 else 1)
      ensures LadderSleep(log) == LadderSleep(old(log))
      ensures Longest(log, from) == if r.Broken? && |r.text| > |Longest(old(log), from)| then r.text else Longest(old(log), from)
      ensures Hopeless(log, from) == Hopeless(old(log), from) + (if r.Broken? && !eligible && !Retryable(r.err) then 1 else 0)
      ensures Hopeless(old(log), from) == 0 ==> StopsAtHopeless(log, from)
    {
      r := ChatOnce(limit);
      eligible := r.Broken? && ReconnectEligible(r.err, world.contextDone(step));
      step := step + 1;
      var e := if r.Accepted? then Tried(r.text, false, reconnecting, false)
               else Tried(r.text, true, reconnecting, !eligible && !Retryable(r.err));
      LogStep(log, e, from);
      log := log + [e];
    }

    /** The backoff before resend number attempt; a wait cut short is not resent after. */
    method Rest(attempt: nat, ghost from: nat, ghost base: nat) returns (woken: Option<Err>)
      requires from <= |log| && base <= |log| && Raw(world) && Waits(log, base) == Backoffs(attempt) && Hopeless(log, from) == 0
      modifies this`step, this`now, this`log
      ensures woken == world.woken(old(step)) && step == old(step) + 1
      ensures woken.Some? ==> Unclassified(woken.value) && !woken.value.oversize && log == old(log) && old(now) <= now <= old(now) + Backoff(attempt)
      ensures woken.None? ==> now == old(now) + Backoff(attempt) && log == old(log) + [Slept(Backoff(attempt), true)]
                              && Waits(log, base) == Backoffs(attempt + 1) && StopsAtHopeless(log, from)
      ensures OffLadder(old(log), log)
      ensures Longest(log, from) == Longest(old(log), from) && Hopeless(log, from) == 0
    {
      WaitsStep(log, Slept(Backoff(attempt), true), base);
      woken := Sleep(Backoff(attempt), true, from);
    }

    /** One resend while reconnecting, bounded by what is left of the budget; None means
        the connection is still down. */
    method Resend(remaining: nat, last: Err, best: string, ghost from: nat, ghost base: nat)
      returns (answer: Option<Result>, err: Err, salvage: string)
      requires base <= |log| && Raw(world) && from <= |log| && Longest(log, from) == best && Hopeless(log, from) == 0
      modifies this`step, this`now, this`log
      ensures old(now) <= now <= old(now) + remaining
      ensures |log| == |old(log)| + 1 && log[|old(log)|].Tried? && log[|old(log)|].reconnecting
      ensures OffLadder(old(log), log) && Waits(log, base) == Waits(old(log), base)
      ensures Longest(log, from) == salvage && StopsAtHopeless(log, from)
      ensures Once(world, old(step)).Accepted? <==> answer.Some? && answer.value.Success?
      ensures answer.Some? && answer.value.Success? ==> answer.value.text == Once(world, old(step)).text
      ensures var reply, a := Once(world, old(step)), old(step) + Sends(world, old(step)) + 1;
        reply.Broken? ==>
          if reply.err.sendNow || (world.steering(a) && (reply.err.canceled || reply.err.network)) then answer == Some(SendNow)
          else if !reply.err.ceiling && (reply.err.network || (reply.err.deadline && !world.contextDone(a - 1))) then answer.None? && err == reply.err
          else answer == Some(Failure(reply.text, reply.err))
      ensures answer.Some? && answer.value.SendNow? ==> SteeredAt(world, step - 1) || SendNowAt(world, step - 3)
      ensures answer.Some? && answer.value.Failure? ==> answer.value.err.ceiling || !answer.value.err.network
      ensures answer.Some? && answer.value.Failure? ==> log[|old(log)|].hopeless || Retryable(answer.value.err)
      ensures answer.None? ==> Unclassified(err) && Hopeless(log, from) == 0 && (err.network || err.deadline)
      ensures answer.Some? && answer.value.Success? ==> log[|old(log)|] == Tried(answer.value.text, false, true, false)
      ensures answer.Some? && answer.value.Failure? ==> Unclassified(answer.value.err) && (Retryable(answer.value.err) ==> Hopeless(log, from) == 0)
    {
      answer, err, salvage := None, last, best;
      var reply, eligible := Attempt(Some(remaining), true, from);
      WaitsStep(old(log), log[|old(log)|], base);
      if reply.Accepted? {
        return Some(Success(reply.text)), err, salvage;
      }
      err := reply.err;
      if |reply.text| > |salvage| {
        salvage := reply.text;
      }
      var requested := Steering();
      if SteeringAborted(err, requested) {
        answer := Some(SendNow);
      } else if !eligible {
        answer := Some(Failure(reply.text, err));
      }
    }

    /** One round of the wait: the backoff, the budget check, the resend.  None means the
        connection is still down and the budget not spent. */
    method Round(attempt: nat, end: int, last: Err, best: string, ghost from: nat, ghost base: nat)
      returns (answer: Option<Result>, err: Err, salvage: string)
      requires from <= |log| && base <= |log| && Raw(world) && Waits(log, base) == Backoffs(attempt) && now <= end
      requires Longest(log, from) == best && Hopeless(log, from) == 0
      modifies this`step, this`now, this`log
      ensures old(now) <= now <= end + MAX_BACKOFF && OffLadder(old(log), log)
      ensures Longest(log, from) == salvage && StopsAtHopeless(log, from)
      ensures |log| <= |old(log)| + 2 && Waits(log, base) == Backoffs(if log == old(log) then attempt else attempt + 1)
      ensures answer.None? ==> |log| == |old(log)| + 2 && old(now) < now <= end && log[|log| - 1].Tried? && log[|log| - 1].reconnecting
      ensures answer.None? ==> Unclassified(err) && Hopeless(log, from) == 0 && (err.network || err.deadline)
      ensures answer.Some? ==> WaitOver(world, log, step, now, end, answer.value)
      ensures answer.Some? && answer.value.Failure? ==> (answer.value.err == last || Unclassified(answer.value.err))
      ensures answer.Some? && answer.value.Failure? && Retryable(answer.value.err) ==> Hopeless(log, from) == 0
      ensures answer.Some? && answer.value.Failure? ==> if log == old(log) then !answer.value.err.oversize && Unclassified(answer.value.err) else Labels(log, answer.value.err)
      ensures answer.Some? && answer.value.Success? ==> |log| == |old(log)| + 2
      ensures world.woken(old(step)).Some?
              ==> answer == Some(if world.steering(old(step) + 1) then SendNow else Failure(best, world.woken(old(step)).value)) && log == old(log)
      ensures world.woken(old(step)).None? && end <= old(now) + Backoff(attempt)
              ==> answer.Some? && answer.value.Failure? && answer.value.err == last && log == old(log) + [Slept(Backoff(attempt), true)]
      ensures world.woken(old(step)).None? && old(now) + Backoff(attempt) < end && Once(world, old(step) + 1).Accepted?
              ==> answer == Some(Success(Once(world, old(step) + 1).text))
                  && log == old(log) + [Slept(Backoff(attempt), true), Tried(Once(world, old(step) + 1).text, false, true, false)]
    {
      answer, err, salvage := None, last, best;
      var woken := Rest(attempt, from, base);
      if woken.Some? {
        var requested := Steering();
        answer := Some(if requested then SendNow else Failure(salvage, woken.value));
      } else if end - now <= 0 {
        answer := Some(Failure(salvage, err));
      } else {
        answer, err, salvage := Resend(end - now, err, salvage, from, base);
      }
    }

    /** waitForConnectivity: resends until an answer, a non-network error, an
        interruption, or a budget it overruns by no more than its last backoff.  The
        waits are the backoffs 0, 1, 2, ... and each comes before its resend. */
    method WaitForConnectivity(maxWait: int, first: Err, best: string, ghost from: nat)
      returns (r: Result, salvage: string, ghost rounds: nat)
      requires maxWait > 0 && Raw(world)
      requires from <= |log| && Longest(log, from) == best && Hopeless(log, from) == 0
      modifies this`step, this`now, this`log
      ensures old(now) <= now <= old(now) + maxWait + MAX_BACKOFF
      ensures OffLadder(old(log), log)
      ensures Longest(log, from) == salvage && StopsAtHopeless(log, from)
      ensures Waits(log, |old(log)|) == Backoffs(rounds) && 2 * rounds - 1 <= |log| - |old(log)| <= 2 * rounds
      ensures r.Success? ==> |log| >= |old(log)| + 2
      ensures WaitOver(world, log, step, now, old(now) + maxWait, r)
      ensures r.Failure? ==> (r.err == first || Unclassified(r.err)) && (Retryable(r.err) ==> Hopeless(log, from) == 0)
      ensures r.Failure? ==> if log == old(log) then !r.err.oversize else Labels(log, r.err)
      ensures world.woken(old(step)).None? && maxWait <= Backoff(0) ==> r.Failure? && r.err == first && log == old(log) + [Slept(Backoff(0), true)]
      ensures world.woken(old(step)).None? && maxWait > Backoff(0) && Once(world, old(step) + 1).Accepted?
              ==> r == Success(Once(world, old(step) + 1).text)
                  && log == old(log) + [Slept(Backoff(0), true), Tried(Once(world, old(step) + 1).text, false, true, false)]
    {
      salvage, rounds := best, 0;
      var started, attempt, err := now, 0, first;
      while true
        invariant old(now) <= now <= started + maxWait && started == old(now)
        invariant OffLadder(old(log), log)
        invariant Longest(log, from) == salvage && Hopeless(log, from) == 0
        invariant err == first || Unclassified(err)
        invariant rounds == attempt && Waits(log, |old(log)|) == Backoffs(attempt) && |log| == |old(log)| + 2 * attempt
        invariant if attempt == 0 then step == old(step) && now == started && log == old(log) && err == first
                  else !(world.woken(old(step)).None? && (maxWait <= Backoff(0) || Once(world, old(step) + 1).Accepted?))
        decreases started + maxWait - now
      {
        ghost var before := log;
        var answer;
        answer, err, salvage := Round(attempt, started + maxWait, err, salvage, from, |old(log)|);
        rounds := if log == before then attempt else attempt + 1;
        if answer.Some? {
          return answer.value, salvage, rounds;
        }
        attempt := attempt + 1;
      }
    }

    /** The wait after a dropped connection, and what of its end stops the call.  None
        leaves the wait's error to be judged like the ladder's own. */
    method Reconnect(maxWait: int, first: Err, best: string, ghost from: nat) returns (stop: Option<Result>, err: Err, salvage: string)
      requires Raw(world) && maxWait > 0 && log != [] && Labels(log, first)
      requires from <= |log| && Longest(log, from) == best && Hopeless(log, from) == 0
      modifies this`step, this`now, this`log
      ensures OffLadder(old(log), log) && old(now) <= now && StopsAtHopeless(log, from)
      ensures stop != Some(SendNow) ==> Longest(log, from) == salvage
      ensures stop.None? ==> Labels(log, err) && if Retryable(err) then Hopeless(log, from) == 0 else GaveUp(world, log, step)
      ensures stop.Some? && stop.value.Success? ==> log[|log| - 1] == Tried(stop.value.text, false, true, false)
      ensures stop.Some? && stop.value.Failure? ==> stop.value == Failure(salvage, err) && Labels(log, err) && GaveUp(world, log, step)
      ensures stop == Some(SendNow) ==> Interrupted(world, step)
      ensures world.woken(old(step)).None? && maxWait <= 1000 && (first.network || first.deadline) && !first.canceled && !first.sendNow
              ==> stop.Some? && stop.value.Failure? && log == old(log) + [Slept(1000, true)]
      ensures world.woken(old(step)).None? && maxWait > 1000 && Once(world, old(step) + 1).Accepted?
              ==> stop == Some(Success(Once(world, old(step) + 1).text))
                  && log == old(log) + [Slept(1000, true), Tried(Once(world, old(step) + 1).text, false, true, false)]
    {
      var r;
      ghost var rounds;
      r, salvage, rounds := WaitForConnectivity(maxWait, first, best, from);
      err := first;
      if r.Success? {
        return Some(r), err, salvage;
      }
      var requested := Steering();
      if r.SendNow? || SteeringCancel(r.err, requested) {
        return Some(SendNow), err, salvage;
      }
      err := r.err;
      stop := if err.network || err.canceled || err.deadline then Some(Failure(salvage, err)) else None;
    }

    /** A rung's own request: accepted, interrupted, or an error to be judged. */
    method Ask(best: string, ghost from: nat) returns (stop: Option<Result>, err: Err, salvage: string, eligible: bool)
      requires Raw(world)
      requires from <= |log| && Longest(log, from) == best && Hopeless(log, from) == 0
      modifies this`step, this`now, this`log
      ensures old(now) <= now && |log| == |old(log)| + 1 && old(log) <= log && log[|log| - 1].Tried? && !log[|log| - 1].reconnecting
      ensures LadderTries(log) == LadderTries(old(log)) + 1 && LadderSleep(log) == LadderSleep(old(log))
      ensures StopsAtHopeless(log, from) && (stop != Some(SendNow) ==> Longest(log, from) == salvage)
      ensures stop.None? ==> Labels(log, err) && if eligible || Retryable(err) then Hopeless(log, from) == 0 else log[|log| - 1].hopeless
      ensures stop.Some? ==> if stop.value.Success? then !log[|log| - 1].failed && log[|log| - 1].text == stop.value.text
                             else stop.value.SendNow? && Interrupted(world, step)
      ensures var first, a := Once(world, old(step)), old(step) + Sends(world, old(step)) + 1;
        if first.Accepted? then stop == Some(Success(first.text)) && log == old(log) + [Tried(first.text, false, false, false)]
        else log == old(log) + [Tried(first.text, true, false, !eligible && !Retryable(first.err))]
             && eligible == ReconnectEligible(first.err, world.contextDone(a - 1)) && step == a + 1 && err == Classify(first.err)
             && (stop.None? <==> !first.err.sendNow && !(world.steering(a) && (first.err.canceled || first.err.network)))
    {
      stop, salvage := None, best;
      var reply;
      reply, eligible := Attempt(None, false, from);
      if reply.Accepted? {
        return Some(Success(reply.text)), Err(false, false, false, false, false, false, None, false, false), salvage, eligible;
      }
      err := Classify(reply.err);
      var requested := Steering();
      if SteeringAborted(err, requested) {
        return Some(SendNow), err, salvage, eligible;
      }
      if |reply.text| > |salvage| {
        salvage := reply.text;
      }
    }

    /** One rung: a request, and the reconnect wait when its connection dropped.  None
        means the error is worth another rung, and every other end has its reason. */
    method Rung(maxWait: int, best: string, ghost from: nat) returns (stop: Option<Result>, err: Err, salvage: string)
      requires Raw(world) && maxWait > 0
      requires from <= |log| && Longest(log, from) == best && Hopeless(log, from) == 0
      modifies this`step, this`now, this`log
      ensures old(log) <= log && |log| > |old(log)| && old(now) <= now
      ensures LadderTries(log) == LadderTries(old(log)) + 1 && LadderSleep(log) == LadderSleep(old(log))
      ensures StopsAtHopeless(log, from) && (stop != Some(SendNow) ==> Longest(log, from) == salvage)
      ensures stop.None? ==> Hopeless(log, from) == 0 && Labels(log, err)
      ensures stop.Some? && stop.value.Success? ==> log[|log| - 1].Tried? && !log[|log| - 1].failed && log[|log| - 1].text == stop.value.text
      ensures stop.Some? && stop.value.Failure? ==> stop.value.best == salvage && Labels(log, stop.value.err) && GaveUp(world, log, step)
      ensures stop == Some(SendNow) ==> Interrupted(world, step)
      ensures FirstReply(world, old(step), step, maxWait, old(log), log, stop)
      ensures Tries(log, |old(log)|, Once(world, old(step)))
    {
      var eligible;
      stop, err, salvage, eligible := Ask(best, from);
      if stop.None? && eligible {
        stop, err, salvage := Reconnect(maxWait, err, salvage, from);
      }
      if stop.None? && !Retryable(err) {
        stop := Some(Failure(salvage, err));
      }
    }

    /** A rung and the backoff after it; None means the next rung is due. */
    method Climb(i: nat, more: bool, maxWait: int, best: string, ghost from: nat) returns (stop: Option<Result>, err: Err, salvage: string)
      requires Raw(world) && maxWait > 0
      requires from <= |log| && Longest(log, from) == best && Hopeless(log, from) == 0
      modifies this`step, this`now, this`log
      ensures old(log) <= log && |log| > |old(log)| && old(now) <= now && StopsAtHopeless(log, from)
      ensures LadderTries(log) == LadderTries(old(log)) + 1
      ensures LadderSleep(log) == LadderSleep(old(log)) + (if stop.None? && more then 50 * Pow2(i) else 0)
      ensures stop.None? ==> Hopeless(log, from) == 0 && Longest(log, from) == salvage && (!more ==> Labels(log, err))
      ensures stop.Some? ==> Ends(world, log, from, step, false, stop.value)
      ensures Tries(log, |old(log)|, Once(world, old(step))) && DropDecides(world, old(step), maxWait, old(log), log, stop)
      ensures var first, a := Once(world, old(step)), old(step) + Sends(world, old(step)) + 1;
        && (first.Accepted? ==> stop == Some(Success(first.text)) && |log| == |old(log)| + 1)
        && (HiccupAt(world, old(step)) ==> stop.None? && step == a + (if more then 3 else 2))
        && (HiccupAt(world, old(step)) && more ==> |log| == |old(log)| + 2 && Hiccuped(world, old(step), i, old(log), log))
    {
      stop, err, salvage := Rung(maxWait, best, from);
      if stop.None? {
        stop := Pause(i, more, Failure(salvage, err), from);
      }
    }

    /** chatRetryLadder.  With maxRetries at least 0: at most maxRetries + 1 requests on
        the ladder, exactly that many before a failure unless the call gave up for a
        reason, with the doubling backoffs between them and no others; nothing follows a
        hopeless error; success is the last request's text, and a failure returns the
        longest fragment.  A first hiccup is followed by 50 ms and a second request,
        whose text is the answer when it is accepted.  A negative maxRetries sends
        nothing and still reports success.  An oversized prompt is classified when the
        ladder's own request failed last, and never when the error came from
        reconnecting. */
    method Ladder(maxRetries: int, configuredWait: int) returns (r: Result, ghost tries: nat)
      requires Raw(world)
      modifies this`step, this`now, this`log
      ensures old(log) <= log && old(now) <= now
      ensures maxRetries < 0 ==> r == Success("") && log == old(log)
      ensures maxRetries >= 0 ==> 1 <= tries <= maxRetries + 1 && Paced(old(log), log, tries, tries - 1)
      ensures StopsAtHopeless(log, |old(log)|)
      ensures maxRetries >= 0 ==> Ends(world, log, |old(log)|, step, tries == maxRetries + 1, r)
      ensures maxRetries >= 0 && Once(world, old(step)).Accepted? ==> r == Success(Once(world, old(step)).text) && |log| == |old(log)| + 1
      ensures maxRetries >= 0 ==> DropDecides(world, old(step), if configuredWait > 0 then configuredWait else 120000, old(log), log, Some(r))
      ensures maxRetries >= 1 && HiccupAt(world, old(step)) ==> SecondDecides(world, old(step), old(log), log, r)
    {
      var attempts, best, i := maxRetries + 1, "", 0;
      r := Success("");
      while i < attempts
        invariant i == 0 || i <= attempts
        invariant old(now) <= now && Longest(log, |old(log)|) == best && Hopeless(log, |old(log)|) == 0
        invariant StopsAtHopeless(log, |old(log)|)
        invariant Paced(old(log), log, i, if i > 0 && i == attempts then i - 1 else i)
        invariant i == 0 ==> r == Success("") && log == old(log) && step == old(step)
        invariant i > 0 ==> r.Failure? && r.best == best && (i == attempts ==> Ends(world, log, |old(log)|, step, true, r)) && !Once(world, old(step)).Accepted?
        invariant i > 0 ==> DropDecides(world, old(step), EffectiveMaxWait(configuredWait), [], [], None)
        invariant i > 0 && attempts > 1 && HiccupAt(world, old(step)) ==> Resent(world, old(step), old(log), log, step, i)
      {
        var stop, err;
        stop, err, best := Climb(i, i < attempts - 1, EffectiveMaxWait(configuredWait), best, |old(log)|);
        if stop.Some? {
          return stop.value, i + 1;
        }
        r := Failure(best, err);
        i := i + 1;
      }
      tries := i;
    }

    /** Between rungs: an interruption ends the call with the failure as it is; the
        backoff doubles, and none follows the last rung. */
    method Pause(i: nat, more: bool, failed: Result, ghost from: nat) returns (r: Option<Result>)
      requires from <= |log| && Hopeless(log, from) == 0 && StopsAtHopeless(log, from)
      requires failed.Failure? && log != [] && Labels(log, failed.err) && Raw(world)
      modifies this`step, this`now, this`log
      ensures old(now) <= now && old(log) <= log && LadderTries(log) == LadderTries(old(log))
      ensures r.Some? ==> log == old(log)
      ensures LadderSleep(log) == LadderSleep(old(log)) + (if r.None? && more then 50 * Pow2(i) else 0)
      ensures r.None? ==> log == old(log) + if more then [Slept(50 * Pow2(i), false)] else []
      ensures r.None? ==> step == old(step) + (if more then 2 else 1)
      ensures r.None? <==> !world.steering(old(step)) && (more ==> world.woken(old(step) + 1).None?)
      ensures r.Some? && r.value.Failure? ==> SteeredAt(world, step - 1) || WokenAt(world, step - 2)
      ensures r == Some(SendNow) ==> SteeredAt(world, step - 1)
      ensures Longest(log, from) == Longest(old(log), from) && Hopeless(log, from) == 0 && StopsAtHopeless(log, from)
      ensures r.Some? ==> r.value.SendNow? || (r.value.Failure? && r.value.best == failed.best && Labels(log, r.value.err))
    {
      r := None;
      var requested := Steering();
      if requested {
        return Some(failed);
      }
      if more {
        var woken := Sleep(50 * Pow2(i), false, from);
        if woken.Some? {
          requested := Steering();
          r := Some(if SteeringCancel(woken.value, requested) then SendNow else Failure(failed.best, woken.value));
        }
      }
    }
  }

  lemma {:induction false} NapsDouble(n: nat)
    ensures Naps(n) == 50 * (Pow2(n) - 1)
  {
    if n > 0 {
      NapsDouble(n - 1);
    }
  }
}
