/** Concluding a turn with tools disabled (internal/agent/finalize.go).

    A World answers each logical model request, parses envelopes, and says whether the
    turn may still publish.  Prompt wording is reduced to what a message is for. */
module Finalize {
  import opened Common

  const MAX_ATTEMPTS := 3

  datatype Role = System | User | Assistant | Tool
  datatype Message = Message(role: Role, content: string, toolCallID: string, calls: seq<string>)

  datatype Response = Response(text: string, calls: seq<string>)
  datatype Reason = Stalled | RepeatFailure | Malformed | Empty | Overhead | Exhausted | Unverified

  /** parse gives an envelope's answer or final content; prose what is readable in raw
      output. */
  datatype World = World(reply: nat -> Option<Response>, parse: string -> Option<string>, prose: string -> string, commits: bool)

  // ------------------------------------------------------------------ blank text

  predicate IsSpace(c: char) {
    var n := c as int;
    9 <= n <= 13 || n in {32, 133, 160, 5760, 8232, 8233, 8239, 8287, 12288} || 8192 <= n <= 8202
  }

  predicate Blank(s: string) { forall k :: 0 <= k < |s| ==> IsSpace(s[k]) }

  function TrimLeft(s: string): string { if s != "" && IsSpace(s[0]) then TrimLeft(s[1..]) else s }
  function TrimRight(s: string): string { if s != "" && IsSpace(s[|s| - 1]) then TrimRight(s[..|s| - 1]) else s }
  function Trim(s: string): string { TrimRight(TrimLeft(s)) }

  lemma {:induction false} TrimLeftBlank(s: string)
    ensures TrimLeft(s) == "" <==> Blank(s)
    ensures TrimLeft(s) != "" ==> !IsSpace(TrimLeft(s)[0])
  {
    if s != "" && IsSpace(s[0]) {
      TrimLeftBlank(s[1..]);
      assert forall k :: 0 < k < |s| ==> s[k] == s[1..][k - 1];
    }
  }

  lemma {:induction false} TrimRightKeeps(s: string)
    requires s != "" && !IsSpace(s[0])
    ensures TrimRight(s) != "" && TrimRight(s)[0] == s[0]
  {
    if IsSpace(s[|s| - 1]) {
      TrimRightKeeps(s[..|s| - 1]);
    }
  }

  /** Trimming leaves nothing exactly when there was nothing but space, and anything it
      leaves is not blank. */
  lemma TrimBlank(s: string)
    ensures Trim(s) == "" <==> Blank(s)
    ensures Trim(s) != "" ==> !Blank(Trim(s))
  {
    TrimLeftBlank(s);
    if TrimLeft(s) != "" { TrimRightKeeps(TrimLeft(s)); }
  }

  lemma {:induction false} TrimLeftIs(s: string) returns (a: string)
    ensures Blank(a) && s == a + TrimLeft(s)
  {
    a := "";
    if s != "" && IsSpace(s[0]) {
      var rest := TrimLeftIs(s[1..]);
      a := [s[0]] + rest;
    }
  }

  lemma {:induction false} TrimRightIs(s: string) returns (b: string)
    ensures Blank(b) && s == TrimRight(s) + b && (TrimRight(s) != "" ==> !IsSpace(TrimRight(s)[|TrimRight(s)| - 1]))
  {
    b := "";
    if s != "" && IsSpace(s[|s| - 1]) {
      var rest := TrimRightIs(s[..|s| - 1]);
      b := rest + [s[|s| - 1]];
    }
  }

  /** Trimming takes space from the two ends and nothing else. */
  lemma TrimIs(s: string) returns (a: string, b: string)
    ensures Blank(a) && Blank(b) && s == a + Trim(s) + b
    ensures Trim(s) != "" ==> !IsSpace(Trim(s)[0]) && !IsSpace(Trim(s)[|Trim(s)| - 1])
  {
    a := TrimLeftIs(s);
    b := TrimRightIs(TrimLeft(s));
    TrimLeftBlank(s);
    if Trim(s) != "" { TrimRightKeeps(TrimLeft(s)); }
  }

  // ------------------------------------------------------------- paired histories

  /** The calls still waiting for their tool message after a history; None once a
      message broke the pairing. */
  function Waiting(h: seq<Message>): Option<multiset<string>> {
    if h == [] then Some(multiset{}) else Next(Waiting(h[..|h| - 1]), h[|h| - 1])
  }

  function Next(waiting: Option<multiset<string>>, m: Message): Option<multiset<string>> {
    match waiting
    case None => None
    case Some(w) =>
      if m.role.Tool? then (if m.toolCallID in w then Some(w - multiset{m.toolCallID}) else None)
      else if w != multiset{} then None
      else Some(if m.role.Assistant? then multiset(m.calls) else multiset{})
  }

  /** Every assistant tool call is answered by exactly one tool message before the next
      model turn, and no tool message answers anything else. */
  predicate Paired(h: seq<Message>) { Waiting(h) == Some(multiset{}) }

  lemma WaitingAfter(h: seq<Message>, m: Message)
    ensures Waiting(h + [m]) == Next(Waiting(h), m)
  {
    assert (h + [m])[..|h|] == h;
  }

  function Disabled(id: string): Message { Message(Tool, "disabled", id, []) }

  function Replies(calls: seq<string>): seq<Message> {
    if calls == [] then [] else Replies(calls[..|calls| - 1]) + [Disabled(calls[|calls| - 1])]
  }

  lemma OneMore(calls: seq<string>, rest: multiset<string>)
    requires calls != []
    ensures var n := |calls| - 1; multiset(calls) + rest == multiset(calls[..n]) + (multiset{calls[n]} + rest)
  {
    assert calls == calls[..|calls| - 1] + [calls[|calls| - 1]];
  }

  lemma DisabledSettles(h: seq<Message>, id: string, rest: multiset<string>)
    requires Waiting(h) == Some(multiset{id} + rest)
    ensures Waiting(h + [Disabled(id)]) == Some(rest)
  {
    WaitingAfter(h, Disabled(id));
    assert multiset{id} + rest - multiset{id} == rest;
  }

  lemma {:induction false} RepliesSettle(h: seq<Message>, calls: seq<string>, rest: multiset<string>)
    requires Waiting(h) == Some(multiset(calls) + rest)
    ensures Waiting(h + Replies(calls)) == Some(rest)
    decreases |calls|
  {
    if calls == [] {
      assert h + Replies(calls) == h && multiset(calls) + rest == rest;
    } else {
      var n := |calls| - 1;
      OneMore(calls, rest);
      RepliesSettle(h, calls[..n], multiset{calls[n]} + rest);
      DisabledSettles(h + Replies(calls[..n]), calls[n], rest);
      assert h + Replies(calls) == h + Replies(calls[..n]) + [Disabled(calls[n])];
    }
  }

  /** The refused tool calls of a native response, each answered once. */
  lemma RefusedStaysPaired(h: seq<Message>, r: Response)
    requires Paired(h)
    ensures Paired(h + [Message(Assistant, r.text, "", r.calls)] + Replies(r.calls))
  {
    WaitingAfter(h, Message(Assistant, r.text, "", r.calls));
    assert multiset(r.calls) + multiset{} == multiset(r.calls);
    RepliesSettle(h + [Message(Assistant, r.text, "", r.calls)], r.calls, multiset{});
  }

  lemma PlainStaysPaired(h: seq<Message>, m: Message)
    requires Paired(h) && !m.role.Tool? && (m.role.Assistant? ==> m.calls == [])
    ensures Paired(h + [m])
  {
    WaitingAfter(h, m);
    assert m.role.Assistant? ==> multiset(m.calls) == multiset{};
  }

  // ------------------------------------------------------------------- the answer

  /** The content a response concludes with, if it does. */
  function Accepted(w: World, native: bool, r: Response): Option<string> {
    if native then (if r.calls == [] && Trim(r.text) != "" then Some(Trim(r.text)) else None)
    else w.parse(r.text)
  }

  /** A native response concludes if and only if it calls no tool and says something, and
      then with its trimmed text; a response in an envelope as the envelope parses. */
  lemma ConcludesExactly(w: World, r: Response)
    ensures Accepted(w, true, r).Some? <==> r.calls == [] && !Blank(r.text)
    ensures Accepted(w, true, r).Some? ==> Accepted(w, true, r).value == Trim(r.text) && !Blank(Trim(r.text))
    ensures Accepted(w, false, r) == w.parse(r.text)
  {
    TrimBlank(r.text);
  }

  function Opening(reason: Reason): (s: string)
    ensures !Blank(s)
  {
    match reason
    case Stalled => assert !IsSpace('s'); assert "stuck repeating one lookup"[0] == 's'; "stuck repeating one lookup"
    case RepeatFailure => assert !IsSpace('s'); assert "stuck on one failing call"[0] == 's'; "stuck on one failing call"
    case Malformed => assert !IsSpace('u'); assert "unparseable output"[0] == 'u'; "unparseable output"
    case Empty => assert !IsSpace('n'); assert "no more output"[0] == 'n'; "no more output"
    case Overhead => assert !IsSpace('o'); assert "overhead cap reached"[0] == 'o'; "overhead cap reached"
    case _ => assert !IsSpace('b'); assert "budget exhausted"[0] == 'b'; "budget exhausted"
  }

  function PlanText(plan: seq<string>): string {
    if plan == [] then "" else PlanText(plan[..|plan| - 1]) + "- " + plan[|plan| - 1] + "\n"
  }

  /** synthesizeFallback: an opening for the reason, then the plan and any prose. */
  function Fallback(w: World, plan: seq<string>, raw: string, reason: Reason): string {
    Opening(reason) + (if plan != [] then PlanText(plan) + "\n" else "") + (if w.prose(raw) != "" then w.prose(raw) + "\n" else "")
  }

  lemma FallbackSaysSomething(w: World, plan: seq<string>, raw: string, reason: Reason)
    ensures !Blank(Fallback(w, plan, raw, reason))
  {
    var o, f := Opening(reason), Fallback(w, plan, raw, reason);
    var k :| 0 <= k < |o| && !IsSpace(o[k]);
    assert f[k] == o[k];
  }

  // ----------------------------------------------------------------- the requests

  const DIRECTIVE := Message(System, "directive", "", [])

  /** What follows a response that did not conclude: an empty native one is asked for
      prose, any other corrected, and before the last attempt warned. */
  function Correction(native: bool, r: Response, attempt: nat): Message {
    Message(System, if native && r.calls == [] then "empty" else if attempt == MAX_ATTEMPTS - 2 then "warning" else "correction", "", [])
  }

  function Refusals(native: bool, r: Response): seq<string> { if native then r.calls else [] }

  /** The next request after such a response. */
  function Corrected(h: seq<Message>, native: bool, r: Response, attempt: nat): seq<Message> {
    h + [Message(Assistant, r.text, "", Refusals(native, r))] + Replies(Refusals(native, r)) + [Correction(native, r, attempt)]
  }

  /** The k-th request of a finalization whose replies count from the given one. */
  function Request(w: World, native: bool, messages: seq<Message>, from: nat, k: nat): seq<Message> {
    if k == 0 then messages + [DIRECTIVE]
    else match w.reply(from + k - 1)
         case None => Request(w, native, messages, from, k - 1)
         case Some(r) => Corrected(Request(w, native, messages, from, k - 1), native, r, k - 1)
  }

  lemma CorrectedStaysPaired(h: seq<Message>, native: bool, r: Response, attempt: nat)
    requires Paired(h)
    ensures Paired(Corrected(h, native, r, attempt))
  {
    var answer := Response(r.text, Refusals(native, r));
    RefusedStaysPaired(h, answer);
    PlainStaysPaired(h + [Message(Assistant, r.text, "", answer.calls)] + Replies(answer.calls), Correction(native, r, attempt));
  }

  predicate FromSystem(m: Message) { m.role.System? && m.toolCallID == "" && m.calls == [] }

  lemma CorrectedExtends(h: seq<Message>, native: bool, r: Response, attempt: nat)
    ensures h <= Corrected(h, native, r, attempt) && Corrected(h, native, r, attempt) != []
    ensures var c := Corrected(h, native, r, attempt); FromSystem(c[|c| - 1])
  {
  }

  lemma PrefixTrans(a: seq<Message>, b: seq<Message>, c: seq<Message>)
    requires a <= b <= c
    ensures a <= c
  {
  }

  ghost predicate Proper(h: seq<Message>, messages: seq<Message>) {
    Paired(h) && messages + [DIRECTIVE] <= h && h != [] && FromSystem(h[|h| - 1])
  }

  /** Every request is paired, starts with the given history and its directive, and ends
      with a message of the system's. */
  lemma {:induction false} EachPaired(w: World, native: bool, messages: seq<Message>, from: nat, k: nat)
    requires Paired(messages)
    ensures Proper(Request(w, native, messages, from, k), messages)
  {
    if k == 0 {
      PlainStaysPaired(messages, DIRECTIVE);
    } else {
      EachPaired(w, native, messages, from, k - 1);
      if w.reply(from + k - 1).Some? {
        CorrectedIsProper(Request(w, native, messages, from, k - 1), messages, native, w.reply(from + k - 1).value, k - 1);
      }
    }
  }

  lemma CorrectedIsProper(h: seq<Message>, messages: seq<Message>, native: bool, r: Response, attempt: nat)
    requires Proper(h, messages)
    ensures Proper(Corrected(h, native, r, attempt), messages)
  {
    CorrectedStaysPaired(h, native, r, attempt);
    CorrectedExtends(h, native, r, attempt);
    PrefixTrans(messages + [DIRECTIVE], h, Corrected(h, native, r, attempt));
  }

  lemma {:induction false} RepliesAnswer(calls: seq<string>, k: nat)
    requires k < |calls|
    ensures |Replies(calls)| == |calls| && Replies(calls)[k] == Message(Tool, "disabled", calls[k], [])
  {
    var n := |calls| - 1;
    if k < n {
      RepliesAnswer(calls[..n], k);
    } else if n > 0 {
      RepliesAnswer(calls[..n], n - 1);
    }
  }

  datatype Outcome = TransportError | Superseded | Recorded

  class Finalizer {
    const world: World
    var sent: seq<seq<Message>>
    var summary: string
    var completed: bool
    var salvaged: Option<Reason>

    constructor (w: World)
      ensures world == w && sent == [] && summary == "" && !completed && salvaged == None
    {
      world, sent, summary, completed, salvaged := w, [], "", false, None;
    }

    method Ask(history: seq<Message>) returns (r: Option<Response>)
      modifies this`sent
      ensures sent == old(sent) + [history] && r == world.reply(|old(sent)|)
    {
      r := world.reply(|sent|);
      sent := sent + [history];
    }

    /** The response that did not conclude, and the correction that follows it: every
        refused tool call gets its tool message first, and nothing asks again after
        the last attempt. */
    method Correct(h: seq<Message>, native: bool, r: Response, attempt: nat) returns (next: seq<Message>)
      requires attempt < MAX_ATTEMPTS
      ensures attempt < MAX_ATTEMPTS - 1 ==> next == Corrected(h, native, r, attempt)
    {
      next := h;
      if native && r.calls != [] {
        next := h + [Message(Assistant, r.text, "", r.calls)] + Replies(r.calls);
        if attempt < MAX_ATTEMPTS - 1 {
          next := next + [Message(System, if attempt == MAX_ATTEMPTS - 2 then "warning" else "correction", "", [])];
        }
      } else if attempt < MAX_ATTEMPTS - 1 {
        var correction := if native then "empty" else if attempt == MAX_ATTEMPTS - 2 then "warning" else "correction";
        next := h + [Message(Assistant, r.text, "", []), Message(System, correction, "", [])];
        assert Replies([]) == [] && next == Corrected(h, native, r, attempt);
      }
    }

    /** One request, what it concludes with, and the next one if it does not. */
    method Try(h: seq<Message>, native: bool, attempt: nat, ghost messages: seq<Message>, ghost from: nat)
      returns (answer: Option<Response>, content: Option<string>, next: seq<Message>)
      requires attempt < MAX_ATTEMPTS && |sent| == from + attempt && Requests(world, native, messages, sent, from)
      requires h == Request(world, native, messages, from, attempt)
      modifies this`sent
      ensures sent == old(sent) + [h] && Requests(world, native, messages, sent, from) && answer == world.reply(|old(sent)|)
      ensures content == if answer.None? then None else Accepted(world, native, answer.value)
      ensures answer.Some? && content.None? && attempt < MAX_ATTEMPTS - 1 ==> next == Request(world, native, messages, from, attempt + 1)
    {
      next, content := h, None;
      answer := Ask(h);
      if answer.Some? {
        content := Accepted(world, native, answer.value);
        if content.None? {
          next := Correct(h, native, answer.value, attempt);
        }
      }
    }

    /** The request loop: it ends with the first response that concludes, or with none
        after the last attempt. */
    method AskUntilAnswered(messages: seq<Message>, native: bool) returns (failed: bool, last: Response, content: Option<string>)
      modifies this`sent
      ensures old(sent) <= sent && 1 <= |sent| - |old(sent)| <= MAX_ATTEMPTS && Requests(world, native, messages, sent, |old(sent)|)
      ensures Refused(world, native, |old(sent)|, |sent| - 1)
      ensures failed <==> world.reply(|sent| - 1).None?
      ensures !failed ==> world.reply(|sent| - 1) == Some(last) && content == Accepted(world, native, last)
      ensures !failed && content.None? ==> |sent| - |old(sent)| == MAX_ATTEMPTS
    {
      var h := messages + [DIRECTIVE];
      var attempt := 0;
      ghost var from := |sent|;
      failed, last, content := false, Response("", []), None;
      while attempt < MAX_ATTEMPTS
        invariant attempt <= MAX_ATTEMPTS && old(sent) <= sent && |sent| == from + attempt
        invariant attempt < MAX_ATTEMPTS ==> h == Request(world, native, messages, from, attempt)
        invariant Requests(world, native, messages, sent, from)
        invariant Refused(world, native, from, |sent|)
        invariant !failed && content.None? && (attempt > 0 ==> world.reply(|sent| - 1) == Some(last) && Accepted(world, native, last).None?)
      {
        var answer;
        answer, content, h := Try(h, native, attempt, messages, from);
        if answer.None? {
          failed := true;
          return;
        }
        last := answer.value;
        if content.Some? {
          return;
        }
        attempt := attempt + 1;
      }
    }

    /** The accepted content, or the fallback when there is none or it is blank. */
    method Compose(native: bool, last: Response, accepted: Option<string>, plan: seq<string>, reason: Reason) returns (content: string)
      requires accepted == Accepted(world, native, last)
      ensures content == Answer(world, native, plan, last, reason) && !Blank(content)
    {
      content := if accepted.Some? then accepted.value else "";
      TrimBlank(content);
      if Trim(content) == "" {
        FallbackSaysSomething(world, plan, last.text, reason);
        content := Fallback(world, plan, last.text, reason);
      }
    }

    /** finalize.  One to three requests, each over the given history and more, all of
        them paired; a recorded summary is never blank and is the first concluding
        response's content, or the fallback when none concluded or it was blank; and
        steering still owed a delivery takes the answer back. */
    method Conclude(messages: seq<Message>, native: bool, plan: seq<string>, reason: Reason) returns (r: Outcome)
      requires Paired(messages)
      modifies this
      ensures old(sent) <= sent && 1 <= |sent| - |old(sent)| <= MAX_ATTEMPTS
      ensures forall k :: |old(sent)| <= k < |sent| ==> Proper(sent[k], messages)
      ensures Requests(world, native, messages, sent, |old(sent)|) && Refused(world, native, |old(sent)|, |sent| - 1)
      ensures r.TransportError? <==> world.reply(|sent| - 1).None?
      ensures r.TransportError? ==> summary == old(summary) && completed == old(completed) && salvaged == old(salvaged)
      ensures !r.TransportError? ==> (r.Recorded? <==> world.commits)
      ensures r.Superseded? ==> summary == "" && !completed && salvaged == None
      ensures r.Recorded? ==> completed && salvaged == Some(reason) && !Blank(summary)
      ensures r.Recorded? && |sent| - |old(sent)| < MAX_ATTEMPTS ==> Accepted(world, native, world.reply(|sent| - 1).value).Some?
      ensures r.Recorded? ==> summary == Answer(world, native, plan, world.reply(|sent| - 1).value, reason)
    {
      var failed, last, accepted := AskUntilAnswered(messages, native);
      AllProper(world, native, messages, sent, |old(sent)|);
      if failed {
        return TransportError;
      }
      var content := Compose(native, last, accepted, plan, reason);
      r := Record(content, reason);
    }

    /** The task's fields, taken back when steering is still owed a delivery. */
    method Record(content: string, reason: Reason) returns (r: Outcome)
      modifies this`summary, this`completed, this`salvaged
      ensures r == if world.commits then Recorded else Superseded
      ensures summary == (if world.commits then content else "") && completed == world.commits
      ensures salvaged == if world.commits then Some(reason) else None
    {
      summary, completed, salvaged := content, true, Some(reason);
      r := Recorded;
      if !world.commits {
        summary, completed, salvaged := "", false, None;
        r := Superseded;
      }
    }
  }

  /** What was sent since from are the requests, in order. */
  predicate Requests(w: World, native: bool, messages: seq<Message>, sent: seq<seq<Message>>, from: nat) {
    forall k :: from <= k < |sent| ==> sent[k] == Request(w, native, messages, from, k - from)
  }

  lemma AllProper(w: World, native: bool, messages: seq<Message>, sent: seq<seq<Message>>, from: nat)
    requires Paired(messages) && Requests(w, native, messages, sent, from)
    ensures forall k :: from <= k < |sent| ==> Proper(sent[k], messages)
  {
    forall k | from <= k < |sent|
      ensures Proper(sent[k], messages)
    {
      EachPaired(w, native, messages, from, k - from);
    }
  }

  /** The requests in [from, to) were answered and none of the answers concluded. */
  predicate Refused(w: World, native: bool, from: nat, to: int)
    decreases to
  {
    to <= from || (Refused(w, native, from, to - 1) && w.reply(to - 1).Some? && Accepted(w, native, w.reply(to - 1).value).None?)
  }

  function Answer(w: World, native: bool, plan: seq<string>, r: Response, reason: Reason): string {
    match Accepted(w, native, r)
    case Some(c) => if Trim(c) != "" then c else Fallback(w, plan, r.text, reason)
    case None => Fallback(w, plan, r.text, reason)
  }

  /** The recorded summary is the concluding response's own content, trimmed when native;
      a blank one, or none, gives way to the fallback. */
  lemma AnswerExactly(w: World, plan: seq<string>, r: Response, reason: Reason)
    ensures Answer(w, true, plan, r, reason) == if r.calls == [] && !Blank(r.text) then Trim(r.text) else Fallback(w, plan, r.text, reason)
    ensures Answer(w, false, plan, r, reason)
         == if w.parse(r.text).Some? && !Blank(w.parse(r.text).value) then w.parse(r.text).value else Fallback(w, plan, r.text, reason)
  {
    TrimBlank(r.text);
    TrimTwice(r.text);
    if w.parse(r.text).Some? { TrimBlank(w.parse(r.text).value); }
  }

  lemma TrimTwice(s: string)
    ensures Trim(s) != "" ==> Trim(Trim(s)) != ""
  {
    TrimBlank(s);
    TrimBlank(Trim(s));
  }

  ghost predicate Holds(s: string, part: string) { exists a, b :: s == a + part + b }

  lemma HoldsWithin(before: string, s: string, after: string, part: string)
    requires Holds(s, part)
    ensures Holds(before + s + after, part)
  {
    var a, b :| s == a + part + b;
    assert before + s + after == (before + a) + part + (b + after);
  }

  function Line(step: string): string { "- " + step + "\n" }

  lemma {:induction false} PlanHolds(plan: seq<string>, k: nat)
    requires k < |plan|
    ensures Holds(PlanText(plan), Line(plan[k]))
  {
    var n := |plan| - 1;
    assert PlanText(plan) == PlanText(plan[..n]) + Line(plan[n]);
    if k < n {
      PlanHolds(plan[..n], k);
      HoldsWithin("", PlanText(plan[..n]), Line(plan[n]), Line(plan[k]));
      assert "" + PlanText(plan[..n]) + Line(plan[n]) == PlanText(plan);
    } else {
      assert PlanText(plan) == PlanText(plan[..n]) + Line(plan[k]) + "";
    }
  }

  lemma Regroup(a: string, b: string, c: string)
    ensures a + (b + "\n") + c == a + b + ("\n" + c)
  {
  }

  /** The fallback opens with its reason and holds every step of the plan. */
  lemma FallbackHoldsPlan(w: World, plan: seq<string>, raw: string, reason: Reason, k: nat)
    ensures Opening(reason) <= Fallback(w, plan, raw, reason)
    ensures k < |plan| ==> Holds(Fallback(w, plan, raw, reason), Line(plan[k]))
  {
    if k < |plan| {
      var tail := if w.prose(raw) != "" then w.prose(raw) + "\n" else "";
      PlanHolds(plan, k);
      Regroup(Opening(reason), PlanText(plan), tail);
      HoldsWithin(Opening(reason), PlanText(plan), "\n" + tail, Line(plan[k]));
    }
  }

  /** And whatever prose the raw output had. */
  lemma FallbackHoldsProse(w: World, plan: seq<string>, raw: string, reason: Reason)
    ensures Holds(Fallback(w, plan, raw, reason), w.prose(raw))
  {
    var head := Opening(reason) + (if plan != [] then PlanText(plan) + "\n" else "");
    var p := w.prose(raw);
    if p == "" {
      assert Fallback(w, plan, raw, reason) == head + p + "";
    } else {
      assert Fallback(w, plan, raw, reason) == head + p + "\n";
    }
  }
}
