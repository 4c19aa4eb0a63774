/** Trimming replayed reasoning (internal/agent/reasoning_trim.go) under the token
    estimate (internal/agent/compact.go estimateTokens). */
module ReasoningTrim {
  import opened Common

  datatype Role = System | User | Assistant | Tool
  datatype ToolCall = ToolCall(id: string, name: string, args: seq<bv8>)
  datatype Reasoning = Reasoning(text: string, items: seq<seq<bv8>>)
  datatype Message = Message(role: Role, content: string, toolCallID: string, calls: seq<ToolCall>, reasoning: Option<Reasoning>)

  // --------------------------------------------------------------- the estimate

  function CallRunes(calls: seq<ToolCall>): nat {
    if calls == [] then 0
    else CallRunes(calls[..|calls| - 1]) + |calls[|calls| - 1].id| + |calls[|calls| - 1].name| + |calls[|calls| - 1].args|
  }

  function ItemBytes(items: seq<seq<bv8>>): nat {
    if items == [] then 0 else ItemBytes(items[..|items| - 1]) + |items[|items| - 1]|
  }

  function MessageRunes(m: Message): nat {
    |m.content| + |m.toolCallID| + CallRunes(m.calls)
    + (if m.reasoning.Some? then |m.reasoning.value.text| + ItemBytes(m.reasoning.value.items) else 0)
  }

  function Runes(msgs: seq<Message>): nat {
    if msgs == [] then 0 else Runes(msgs[..|msgs| - 1]) + MessageRunes(msgs[|msgs| - 1])
  }

  function Estimate(msgs: seq<Message>): nat { Runes(msgs) / 4 }

  /** estimateTokens: the nested loops over one accumulator. */
  method EstimateTokens(msgs: seq<Message>) returns (tokens: nat)
    ensures tokens == Estimate(msgs)
  {
    var runes: nat := 0;
    for i := 0 to |msgs|
      invariant runes == Runes(msgs[..i])
    {
      var m := msgs[i];
      assert msgs[..i + 1][..i] == msgs[..i];
      ghost var before := runes;
      runes := runes + |m.content| + |m.toolCallID|;
      for j := 0 to |m.calls|
        invariant runes == before + |m.content| + |m.toolCallID| + CallRunes(m.calls[..j])
      {
        assert m.calls[..j + 1][..j] == m.calls[..j];
        runes := runes + |m.calls[j].id| + |m.calls[j].name| + |m.calls[j].args|;
      }
      assert m.calls[..|m.calls|] == m.calls;
      if m.reasoning.Some? {
        runes := runes + |m.reasoning.value.text|;
        var items := m.reasoning.value.items;
        ghost var start := runes;
        for j := 0 to |items|
          invariant runes == start + ItemBytes(items[..j])
        {
          assert items[..j + 1][..j] == items[..j];
          runes := runes + |items[j]|;
        }
        assert items[..|items|] == items;
      }
    }
    assert msgs[..|msgs|] == msgs;
    tokens := runes / 4;
  }

  // ---------------------------------------------------------------- what is trimmed

  /** The newest assistant message's position, or -1. */
  function Newest(msgs: seq<Message>): (n: int)
    ensures -1 <= n < |msgs| && (n >= 0 ==> msgs[n].role.Assistant?)
    ensures forall j :: n < j < |msgs| ==> !msgs[j].role.Assistant?
  {
    if msgs == [] then -1 else if msgs[|msgs| - 1].role.Assistant? then |msgs| - 1 else Newest(msgs[..|msgs| - 1])
  }

  /** An assistant message with reasoning, other than the newest assistant message. */
  predicate Eligible(msgs: seq<Message>, i: nat) {
    i < |msgs| && msgs[i].role.Assistant? && msgs[i].reasoning.Some? && i != Newest(msgs)
  }

  /** How many eligible messages come before i. */
  function Rank(msgs: seq<Message>, i: nat): nat {
    if i == 0 then 0 else Rank(msgs, i - 1) + (if Eligible(msgs, i - 1) then 1 else 0)
  }

  /** The messages with the reasoning of their n oldest eligible ones cleared. */
  function Cleared(msgs: seq<Message>, n: nat): seq<Message> {
    seq(|msgs|, i requires 0 <= i < |msgs| => if Eligible(msgs, i) && Rank(msgs, i) < n then msgs[i].(reasoning := None) else msgs[i])
  }

  lemma {:induction false} RankGrows(msgs: seq<Message>, i: nat, j: nat)
    requires i <= j
    ensures Rank(msgs, i) <= Rank(msgs, j) && (i < j && Eligible(msgs, i) ==> Rank(msgs, i) < Rank(msgs, j))
    decreases j
  {
    if i < j {
      RankGrows(msgs, i, j - 1);
    }
  }

  /** Moving past position i clears it if it is eligible and nothing else. */
  lemma ClearedNext(msgs: seq<Message>, i: nat)
    requires i < |msgs|
    ensures var c := Cleared(msgs, Rank(msgs, i));
      c[i] == msgs[i] && Cleared(msgs, Rank(msgs, i + 1)) == if Eligible(msgs, i) then c[i := c[i].(reasoning := None)] else c
  {
    forall k | 0 <= k < |msgs| && k != i
      ensures Cleared(msgs, Rank(msgs, i + 1))[k] == Cleared(msgs, Rank(msgs, i))[k]
    {
      if k < i { RankGrows(msgs, k, i); RankGrows(msgs, k, i + 1); } else { RankGrows(msgs, i + 1, k); RankGrows(msgs, i, k); }
    }
  }

  /** Every shorter prefix than the n oldest was still over. */
  predicate OverBefore(msgs: seq<Message>, over: seq<Message> -> bool, n: nat) {
    n == 0 || (OverBefore(msgs, over, n - 1) && over(Cleared(msgs, n - 1)))
  }

  lemma {:induction false} OverBeforeAt(msgs: seq<Message>, over: seq<Message> -> bool, n: nat, m: nat)
    requires OverBefore(msgs, over, n) && m < n
    ensures over(Cleared(msgs, m))
  {
    if m < n - 1 {
      OverBeforeAt(msgs, over, n - 1, m);
    }
  }

  /** One position of the loop, still over: the message there loses its reasoning if it is
      eligible, and only then is it counted. */
  method ClearAt(out: array<Message>, i: nat, last: int, trimmed: nat, ghost was: seq<Message>, ghost over: seq<Message> -> bool)
    returns (next: nat)
    requires i < out.Length == |was| && trimmed == Rank(was, i) && last == Newest(was)
    requires out[..] == Cleared(was, trimmed) && OverBefore(was, over, trimmed) && over(out[..])
    modifies out
    ensures next == Rank(was, i + 1) && out[..] == Cleared(was, next) && OverBefore(was, over, next)
  {
    ghost var before := out[..];
    ClearedNext(was, i);
    assert out[i] == before[i] == was[i];
    next := trimmed;
    if i != last && out[i].role.Assistant? && out[i].reasoning.Some? {
      out[i] := out[i].(reasoning := None);
      next := trimmed + 1;
      assert out[..] == before[i := was[i].(reasoning := None)];
    } else {
      assert out[..] == before;
    }
  }

  /** The scan from the end for the newest assistant message; -1 when there is none. */
  method FindNewest(msgs: array<Message>) returns (last: int)
    ensures last == Newest(msgs[..])
  {
    last := msgs.Length - 1;
    while last >= 0 && !msgs[last].role.Assistant?
      invariant -1 <= last < msgs.Length
      invariant forall j :: last < j < msgs.Length ==> !msgs[j].role.Assistant?
    {
      last := last - 1;
    }
    assert last >= 0 ==> msgs[..][last] == msgs[last];
    assert forall j :: 0 <= j < msgs.Length ==> msgs[..][j] == msgs[j];
  }

  method Copied(msgs: array<Message>) returns (out: array<Message>)
    ensures fresh(out) && out[..] == msgs[..]
  {
    out := new Message[msgs.Length](i requires 0 <= i < msgs.Length reads msgs => msgs[i]);
  }

  /** The loop over the copy. */
  method TrimCopy(out: array<Message>, last: int, over: seq<Message> -> bool, ghost was: seq<Message>) returns (trimmed: nat)
    requires out[..] == was && last == Newest(was)
    modifies out
    ensures out[..] == Cleared(was, trimmed) && trimmed <= Rank(was, |was|) && OverBefore(was, over, trimmed)
    ensures !over(out[..]) || trimmed == Rank(was, |was|)
  {
    assert was == Cleared(was, 0);
    trimmed := 0;
    var i := 0;
    while i < out.Length
      invariant 0 <= i <= out.Length == |was|
      invariant trimmed == Rank(was, i) && out[..] == Cleared(was, trimmed) && OverBefore(was, over, trimmed)
    {
      if !over(out[..]) {
        RankGrows(was, i, |was|);
        return;
      }
      trimmed := ClearAt(out, i, last, trimmed, was, over);
      i := i + 1;
    }
  }

  /** trimReplayedReasoning, on a copy: the input keeps everything. */
  method TrimReplayedReasoning(msgs: array<Message>, over: seq<Message> -> bool) returns (out: array<Message>, trimmed: nat)
    ensures out[..] == Cleared(msgs[..], trimmed) && trimmed <= Rank(msgs[..], msgs.Length)
    ensures OverBefore(msgs[..], over, trimmed)
    ensures !over(out[..]) || trimmed == Rank(msgs[..], msgs.Length)
  {
    var last := FindNewest(msgs);
    out := Copied(msgs);
    trimmed := TrimCopy(out, last, over, msgs[..]);
  }

  /** The newest assistant message keeps its reasoning, and nothing but reasoning ever
      changes. */
  lemma NewestKept(msgs: seq<Message>, n: nat, i: nat)
    requires i < |msgs|
    ensures i == Newest(msgs) ==> Cleared(msgs, n)[i] == msgs[i]
    ensures Cleared(msgs, n)[i].(reasoning := msgs[i].reasoning) == msgs[i]
  {
  }

  /** What may be trimmed: an assistant message's reasoning, when a later assistant message
      follows it, whatever else either carries. */
  lemma EligibleExactly(msgs: seq<Message>, i: nat)
    ensures Eligible(msgs, i)
       <==> i < |msgs| && msgs[i].role.Assistant? && msgs[i].reasoning.Some? && exists j :: i < j < |msgs| && msgs[j].role.Assistant?
  {
    if i < |msgs| && msgs[i].role.Assistant? && i != Newest(msgs) {
      assert i < Newest(msgs) && msgs[Newest(msgs)].role.Assistant?;
    }
  }

  /** Trimming goes from the oldest on: with a message every older eligible one is trimmed
      too, and trimming one more trims exactly the oldest one left. */
  lemma OldestFirst(msgs: seq<Message>, n: nat, i: nat, j: nat)
    requires i < j < |msgs| && Eligible(msgs, i) && Eligible(msgs, j)
    ensures Cleared(msgs, n)[j].reasoning.None? ==> Cleared(msgs, n)[i].reasoning.None?
    ensures Cleared(msgs, n)[i].reasoning.Some? && Cleared(msgs, n + 1)[i].reasoning.None? ==> Cleared(msgs, n + 1)[j].reasoning.Some?
  {
    RankGrows(msgs, i, j);
  }

  /** Nothing is trimmed by none, and everything eligible by as many as there are. */
  lemma TrimsAll(msgs: seq<Message>, i: nat)
    requires i < |msgs|
    ensures Cleared(msgs, 0)[i] == msgs[i]
    ensures Cleared(msgs, Rank(msgs, |msgs|))[i] == if Eligible(msgs, i) then msgs[i].(reasoning := None) else msgs[i]
  {
    RankGrows(msgs, i, |msgs|);
  }

  lemma {:induction false} CallRunesAdd(calls: seq<ToolCall>, c: ToolCall)
    ensures CallRunes(calls + [c]) == CallRunes(calls) + |c.id| + |c.name| + |c.args|
  {
    assert (calls + [c])[..|calls|] == calls;
  }

  lemma {:induction false} ItemBytesAdd(items: seq<seq<bv8>>, x: seq<bv8>)
    ensures ItemBytes(items + [x]) == ItemBytes(items) + |x|
  {
    assert (items + [x])[..|items|] == items;
  }

  /** Every part of a message counts, by its own length: its content, the call it answers,
      each tool call's id, name and arguments, and its reasoning's text and items. */
  lemma EveryPartCounts(m: Message, text: string, c: ToolCall, x: seq<bv8>)
    ensures MessageRunes(Message(m.role, "", "", [], None)) == 0
    ensures MessageRunes(m.(content := m.content + text)) == MessageRunes(m) + |text|
    ensures MessageRunes(m.(toolCallID := m.toolCallID + text)) == MessageRunes(m) + |text|
    ensures MessageRunes(m.(calls := m.calls + [c])) == MessageRunes(m) + |c.id| + |c.name| + |c.args|
    ensures m.reasoning.None? ==> MessageRunes(m.(reasoning := Some(Reasoning(text, [x])))) == MessageRunes(m) + |text| + |x|
    ensures m.reasoning.Some? ==>
      var r := m.reasoning.value;
      && MessageRunes(m.(reasoning := Some(r.(text := r.text + text)))) == MessageRunes(m) + |text|
      && MessageRunes(m.(reasoning := Some(r.(items := r.items + [x])))) == MessageRunes(m) + |x|
  {
    CallRunesAdd(m.calls, c);
    ItemBytesAdd([], x);
    assert [] + [x] == [x];
    if m.reasoning.Some? { ItemBytesAdd(m.reasoning.value.items, x); }
  }

  /** A history's estimate is a quarter of all its messages', rounded down. */
  lemma HistoryAdds(msgs: seq<Message>, m: Message)
    ensures Runes(msgs + [m]) == Runes(msgs) + MessageRunes(m) && Runes([]) == 0
    ensures 4 * Estimate(msgs) <= Runes(msgs) < 4 * Estimate(msgs) + 4
  {
    assert (msgs + [m])[..|msgs|] == msgs;
  }

  lemma {:induction false} RunesFall(a: seq<Message>, b: seq<Message>)
    requires |a| == |b| && forall i :: 0 <= i < |a| ==> MessageRunes(a[i]) <= MessageRunes(b[i])
    ensures Runes(a) <= Runes(b)
  {
    if a != [] {
      RunesFall(a[..|a| - 1], b[..|b| - 1]);
    }
  }

  /** Each further trim lowers the estimate or leaves it, so with the estimate as the
      test the trimmed prefix is the shortest that fits: every shorter one is over the
      limit, and every longer one up to all of them would do no better at need. */
  lemma EstimateFalls(msgs: seq<Message>, n: nat, m: nat)
    requires n <= m
    ensures Estimate(Cleared(msgs, m)) <= Estimate(Cleared(msgs, n)) <= Estimate(msgs)
  {
    RunesFall(Cleared(msgs, m), Cleared(msgs, n));
    RunesFall(Cleared(msgs, n), msgs);
  }

  /** With the estimate as the test: the result fits, or everything eligible is gone. */
  method TrimToBudget(msgs: array<Message>, budget: nat) returns (out: array<Message>, trimmed: nat)
    ensures out[..] == Cleared(msgs[..], trimmed)
    ensures Estimate(out[..]) <= budget || forall i :: 0 <= i < out.Length ==> !Eligible(msgs[..], i) || out[i].reasoning.None?
    ensures forall m :: 0 <= m < trimmed ==> Estimate(Cleared(msgs[..], m)) > budget
  {
    var over := (ms: seq<Message>) => Estimate(ms) > budget;
    out, trimmed := TrimReplayedReasoning(msgs, over);
    forall m | 0 <= m < trimmed
      ensures Estimate(Cleared(msgs[..], m)) > budget
    {
      OverBeforeAt(msgs[..], over, trimmed, m);
    }
    forall i: nat | i < msgs.Length && Eligible(msgs[..], i)
      ensures Rank(msgs[..], i) < Rank(msgs[..], msgs.Length)
    {
      RankGrows(msgs[..], i, msgs.Length);
    }
    assert forall i :: 0 <= i < out.Length ==> out[i] == out[..][i];
  }
}
