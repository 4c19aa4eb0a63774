/** The per-turn cache of read-only tool results (internal/app/session/session.go
    ClearToolCache, GetTurnToolResult, SetTurnToolResult; its use in
    internal/agent/execute.go executeToolCall). */
module ToolCache {
  import opened Common

  const MAX_ENTRIES := 64
  const MAX_BYTES := 2097152

  datatype Decision = Deny | Confirm | Allow

  /** One call as the world decides it: whether it gets past the gates that follow the
      cache lookup, whether its handler succeeds, and the workspace a write leaves, which
      a failed one may have changed too. */
  datatype Call = Read(tool: string, args: string, cacheable: bool, decision: Decision, goes: bool, ok: bool)
                | Write(tool: string, args: string, decision: Decision, goes: bool, ok: bool, effect: nat)

  datatype Outcome = Refused | Failed | Content(text: string)

  function Key(tool: string, args: string): string { tool + "|" + args }

  predicate Plain(tool: string) { forall k :: 0 <= k < |tool| ==> tool[k] != '|' }

  lemma KeyInjective(tool: string, args: string, tool': string, args': string)
    requires Plain(tool) && Plain(tool') && Key(tool, args) == Key(tool', args')
    ensures tool == tool' && args == args'
  {
    var k := Key(tool, args);
    assert k[|tool|] == '|' && k[|tool'|] == '|';
    assert forall i :: 0 <= i < |tool| ==> k[i] == tool[i];
    assert forall i :: 0 <= i < |tool'| ==> k[i] == tool'[i];
    assert tool == k[..|tool|] && tool' == k[..|tool|] && args == k[|tool| + 1..] && args' == k[|tool| + 1..];
  }

  /** The call with no cache at all. */
  function Uncached(run: (string, string, nat) -> string, c: Call, w: nat): (Outcome, nat) {
    if c.decision.Deny? || !c.goes then (Refused, w)
    else if !c.ok then (Failed, if c.Write? then c.effect else w)
    else if c.Write? then (Content(run(c.tool, c.args, w)), c.effect)
    else (Content(run(c.tool, c.args, w)), w)
  }

  function Without(order: seq<string>, key: string): seq<string> {
    if order == [] then []
    else if order[0] == key then Without(order[1..], key)
    else [order[0]] + Without(order[1..], key)
  }

  lemma {:induction false} WithoutMembers(order: seq<string>, key: string)
    ensures |Without(order, key)| <= |order|
    ensures forall k :: k in Without(order, key) <==> k in order && k != key
  {
    if order != [] {
      WithoutMembers(order[1..], key);
    }
  }

  lemma {:induction false} WithoutIs(order: seq<string>, key: string)
    requires Distinct(order)
    ensures |Without(order, key)| <= |order| && Distinct(Without(order, key))
    ensures forall k :: k in Without(order, key) <==> k in order && k != key
  {
    WithoutMembers(order, key);
    if order != [] {
      var rest := Without(order[1..], key);
      WithoutIs(order[1..], key);
      assert order[0] !in order[1..];
      assert forall j :: 0 <= j < |rest| ==> rest[j] in rest && ([order[0]] + rest)[j + 1] == rest[j];
      assert Distinct([order[0]] + rest);
    }
  }

  predicate Distinct(order: seq<string>) { forall i, j :: 0 <= i < j < |order| ==> order[i] != order[j] }

  function Bytes(order: seq<string>, cache: map<string, string>): nat
    requires forall k :: k in order ==> k in cache
  {
    if order == [] then 0 else |cache[order[0]]| + Bytes(order[1..], cache)
  }

  lemma {:induction false} BytesFrame(order: seq<string>, cache: map<string, string>, cache': map<string, string>)
    requires forall k :: k in order ==> k in cache && k in cache' && cache[k] == cache'[k]
    ensures Bytes(order, cache) == Bytes(order, cache')
  {
    if order != [] {
      BytesFrame(order[1..], cache, cache');
    }
  }

  lemma {:induction false} BytesAppend(order: seq<string>, key: string, cache: map<string, string>)
    requires key in cache && forall k :: k in order ==> k in cache
    ensures Bytes(order + [key], cache) == Bytes(order, cache) + |cache[key]|
  {
    if order == [] {
      assert [key][1..] == [];
    } else {
      BytesAppend(order[1..], key, cache);
      assert (order + [key])[1..] == order[1..] + [key];
    }
  }

  lemma {:induction false} BytesWithout(order: seq<string>, key: string, cache: map<string, string>)
    requires Distinct(order) && key in order && forall k :: k in order ==> k in cache
    ensures (forall k :: k in Without(order, key) ==> k in cache)
    ensures Bytes(Without(order, key), cache) == Bytes(order, cache) - |cache[key]|
  {
    WithoutIs(order, key);
    if order[0] == key {
      WithoutAbsent(order[1..], key);
    } else {
      WithoutIs(order[1..], key);
      BytesWithout(order[1..], key, cache);
    }
  }

  lemma {:induction false} WithoutAbsent(order: seq<string>, key: string)
    requires key !in order
    ensures Without(order, key) == order
  {
    if order != [] {
      WithoutAbsent(order[1..], key);
    }
  }

  /** The bounds eviction restores; the newest entry stays whatever its size. */
  predicate Fits(order: seq<string>, bytes: int) {
    |order| <= MAX_ENTRIES && (bytes <= MAX_BYTES || |order| <= 1)
  }

  lemma FitsExactly(order: seq<string>, bytes: int)
    ensures Fits(order, bytes) <==> |order| <= 64 && (bytes <= 2 * 1024 * 1024 || |order| <= 1)
  {
  }

  /** What eviction leaves: the longest suffix that fits. */
  function Trimmed(order: seq<string>, cache: map<string, string>): seq<string>
    requires forall k :: k in order ==> k in cache
  {
    if Fits(order, Bytes(order, cache)) then order else Trimmed(order[1..], cache)
  }

  lemma {:induction false} TrimmedIsLongest(order: seq<string>, cache: map<string, string>) returns (n: nat)
    requires forall k :: k in order ==> k in cache
    ensures n <= |order| && Trimmed(order, cache) == order[n..] && Fits(order[n..], Bytes(order[n..], cache))
    ensures forall i :: 0 <= i < n ==> !Fits(order[i..], Bytes(order[i..], cache))
    ensures order != [] ==> n < |order|
  {
    if Fits(order, Bytes(order, cache)) {
      n := 0;
      assert order[0..] == order;
    } else {
      var m := TrimmedIsLongest(order[1..], cache);
      n := m + 1;
      assert order[n..] == order[1..][m..];
      forall i | 0 <= i < n
        ensures !Fits(order[i..], Bytes(order[i..], cache))
      {
        if i > 0 { assert order[i..] == order[1..][i - 1..]; } else { assert order[0..] == order; }
      }
    }
  }

  // ------------------------------------------------------------ what the cache is

  /** The cache's entries and their keys, oldest first. */
  datatype Memo = Memo(cache: map<string, string>, order: seq<string>)

  const Empty := Memo(map[], [])

  ghost predicate Good(m: Memo) { Distinct(m.order) && forall k :: k in m.order <==> k in m.cache }

  function Restrict(entries: map<string, string>, order: seq<string>): map<string, string> {
    map k | k in entries && k in order :: entries[k]
  }

  lemma RestrictIs(entries: map<string, string>, order: seq<string>, cache: map<string, string>)
    requires (forall k :: k in order <==> k in cache) && forall k :: k in cache ==> k in entries && cache[k] == entries[k]
    ensures cache == Restrict(entries, order)
  {
  }

  /** A set makes its key the newest; what fits of the rest stays. */
  function Stored(m: Memo, key: string, text: string): Memo
    requires Good(m)
  {
    WithoutMembers(m.order, key);
    var order := Trimmed(Without(m.order, key) + [key], m.cache[key := text]);
    Memo(Restrict(m.cache[key := text], order), order)
  }

  /** The lookup answers a call: only a cacheable read under a live Allow. */
  predicate Served(m: Memo, c: Call) {
    c.Read? && c.cacheable && c.decision.Allow? && Key(c.tool, c.args) in m.cache
  }

  /** The handler runs and succeeds. */
  predicate Succeeds(c: Call) { !c.decision.Deny? && c.goes && c.ok }

  predicate FailedWrite(c: Call) { c.Write? && !c.decision.Deny? && c.goes && !c.ok }

  function StepMemo(run: (string, string, nat) -> string, m: Memo, c: Call, w: nat): Memo
    requires Good(m)
  {
    if Served(m, c) || !Succeeds(c) then m
    else if c.Write? then Empty
    else if c.cacheable then Stored(m, Key(c.tool, c.args), run(c.tool, c.args, w))
    else m
  }

  function Answer(run: (string, string, nat) -> string, m: Memo, c: Call, w: nat): Outcome {
    if Served(m, c) then Content(m.cache[Key(c.tool, c.args)]) else Uncached(run, c, w).0
  }

  lemma SuffixKeeps(whole: seq<string>, n: nat)
    requires n < |whole| && Distinct(whole)
    ensures Distinct(whole[n..]) && whole[|whole| - 1] in whole[n..] && forall k :: k in whole[n..] ==> k in whole
  {
    assert whole[n..][|whole| - n - 1] == whole[|whole| - 1];
  }

  lemma AppendedDistinct(order: seq<string>, key: string)
    requires Distinct(order)
    ensures Distinct(Without(order, key) + [key])
    ensures forall k :: k in Without(order, key) + [key] <==> k in order || k == key
  {
    WithoutIs(order, key);
    assert forall i :: 0 <= i < |Without(order, key)| ==> Without(order, key)[i] in Without(order, key);
  }

  lemma StoredGood(m: Memo, key: string, text: string)
    requires Good(m)
    ensures Good(Stored(m, key, text)) && key in Stored(m, key, text).cache && Stored(m, key, text).cache[key] == text
    ensures forall k :: k in Stored(m, key, text).cache && k != key ==> k in m.cache && Stored(m, key, text).cache[k] == m.cache[k]
  {
    AppendedDistinct(m.order, key);
    var n := TrimmedIsLongest(Without(m.order, key) + [key], m.cache[key := text]);
    SuffixKeeps(Without(m.order, key) + [key], n);
  }

  /** Every entry is what its tool would return now. */
  ghost predicate Coherent(run: (string, string, nat) -> string, m: Memo, w: nat) {
    forall tool, args :: Plain(tool) && Key(tool, args) in m.cache ==> m.cache[Key(tool, args)] == run(tool, args, w)
  }

  /** No cached tool can tell workspace v from w. */
  ghost predicate Unnoticed(run: (string, string, nat) -> string, m: Memo, w: nat, v: nat) {
    forall tool, args :: Plain(tool) && Key(tool, args) in m.cache ==> run(tool, args, v) == run(tool, args, w)
  }

  // ------------------------------------------------------------------ one call

  /** Exactly when a call is answered otherwise than without a cache: it is served, and a
      later gate or the handler would have refused it or the entry is out of date. */
  lemma AnswerDiffersExactly(run: (string, string, nat) -> string, m: Memo, c: Call, w: nat)
    ensures Answer(run, m, c, w) != Uncached(run, c, w).0
       <==> Served(m, c) && (!(c.goes && c.ok) || m.cache[Key(c.tool, c.args)] != run(c.tool, c.args, w))
  {
  }

  /** Without a cache: a denied or stopped call is refused and leaves the workspace, any other
      runs, and only a write moves the workspace, whether it succeeds or fails. */
  lemma UncachedSays(run: (string, string, nat) -> string, c: Call, w: nat)
    ensures Uncached(run, c, w).0 == if c.decision.Deny? || !c.goes then Refused else if !c.ok then Failed else Content(run(c.tool, c.args, w))
    ensures Uncached(run, c, w).1 == if c.Write? && !c.decision.Deny? && c.goes then c.effect else w
  {
  }

  /** A successful cacheable read, allowed or confirmed, is cached with its result and is
      answered from there when it comes again with an Allow, whatever the later gates say
      then; any other read, a failed call and a refused one change nothing. */
  lemma ReadIsCached(run: (string, string, nat) -> string, m: Memo, c: Call, again: Call, w: nat, v: nat)
    requires Good(m)
    ensures var t := StepMemo(run, m, c, w);
      && (c.Read? && c.cacheable && !c.decision.Deny? && c.goes && c.ok && Key(c.tool, c.args) !in m.cache
          && again.Read? && again.cacheable && again.decision.Allow? && again.tool == c.tool && again.args == c.args
          ==> Answer(run, t, again, v) == Content(run(c.tool, c.args, w)))
      && (c.decision.Deny? || !c.goes || !c.ok || (c.Read? && !c.cacheable) ==> t == m)
      && (c.Write? && !c.decision.Deny? && c.goes && c.ok ==> t == Empty)
  {
    if Succeeds(c) && c.Read? { StoredGood(m, Key(c.tool, c.args), run(c.tool, c.args, w)); }
  }

  /** The newest entry is the last, and the rest keep their order. */
  lemma StoredLast(m: Memo, key: string, text: string)
    requires Good(m)
    ensures var o := Stored(m, key, text).order;
      o != [] && o[|o| - 1] == key && exists n: nat :: n <= |Without(m.order, key)| && o == Without(m.order, key)[n..] + [key]
  {
    AppendedDistinct(m.order, key);
    var rest := Without(m.order, key);
    var n := TrimmedIsLongest(rest + [key], m.cache[key := text]);
    assert (rest + [key])[n..] == rest[n..] + [key];
  }

  /** Only a cacheable read that the rules allow now is answered from the cache; it always
      is when its key is there, with the entry, and every other call as without one. */
  lemma OnlyAllowedReadsHit(run: (string, string, nat) -> string, m: Memo, c: Call, w: nat)
    ensures if c.Read? && c.cacheable && c.decision.Allow? && Key(c.tool, c.args) in m.cache
            then Answer(run, m, c, w) == Content(m.cache[Key(c.tool, c.args)])
            else Answer(run, m, c, w) == Uncached(run, c, w).0
  {
  }

  /** Exactly when a call keeps the cache coherent: unless it is a write that failed after
      changing something a cached tool reads, for that alone clears nothing. */
  lemma StepCoherentExactly(run: (string, string, nat) -> string, m: Memo, c: Call, w: nat)
    requires Good(m) && Coherent(run, m, w) && Plain(c.tool)
    ensures Good(StepMemo(run, m, c, w))
    ensures Coherent(run, StepMemo(run, m, c, w), Uncached(run, c, w).1) <==> (FailedWrite(c) ==> Unnoticed(run, m, w, c.effect))
  {
    var t, v := StepMemo(run, m, c, w), Uncached(run, c, w).1;
    if FailedWrite(c) {
      FailedWriteCoherent(run, m, w, c.effect);
    } else if Succeeds(c) && c.Read? && c.cacheable && !Served(m, c) {
      StoredCoherent(run, m, c, w);
    }
  }

  lemma FailedWriteCoherent(run: (string, string, nat) -> string, m: Memo, w: nat, v: nat)
    requires Coherent(run, m, w)
    ensures Coherent(run, m, v) <==> Unnoticed(run, m, w, v)
  {
    forall tool, args | Plain(tool) && Key(tool, args) in m.cache
      ensures m.cache[Key(tool, args)] == run(tool, args, w)
    {
    }
  }

  lemma StoredCoherent(run: (string, string, nat) -> string, m: Memo, c: Call, w: nat)
    requires Good(m) && Coherent(run, m, w) && Plain(c.tool)
    ensures var t := Stored(m, Key(c.tool, c.args), run(c.tool, c.args, w)); Good(t) && Coherent(run, t, w)
  {
    var key := Key(c.tool, c.args);
    var t := Stored(m, key, run(c.tool, c.args, w));
    StoredGood(m, key, run(c.tool, c.args, w));
    forall tool, args | Plain(tool) && Key(tool, args) in t.cache
      ensures t.cache[Key(tool, args)] == run(tool, args, w)
    {
      if Key(tool, args) == key { KeyInjective(tool, args, c.tool, c.args); }
    }
  }

  // ------------------------------------------------------------------ whole runs

  function After(run: (string, string, nat) -> string, calls: seq<Call>, w: nat): nat {
    if calls == [] then w else Uncached(run, calls[|calls| - 1], After(run, calls[..|calls| - 1], w)).1
  }

  /** The cache after a run that starts with none. */
  function MemoAfter(run: (string, string, nat) -> string, calls: seq<Call>, w: nat): (m: Memo)
    ensures Good(m)
  {
    if calls == [] then Empty
    else
      var n := |calls| - 1;
      var m := MemoAfter(run, calls[..n], w);
      StepGood(run, m, calls[n], After(run, calls[..n], w));
      StepMemo(run, m, calls[n], After(run, calls[..n], w))
  }

  lemma StepGood(run: (string, string, nat) -> string, m: Memo, c: Call, w: nat)
    requires Good(m)
    ensures Good(StepMemo(run, m, c, w))
  {
    if Succeeds(c) && c.Read? { StoredGood(m, Key(c.tool, c.args), run(c.tool, c.args, w)); }
  }

  function Answers(run: (string, string, nat) -> string, calls: seq<Call>, w: nat): seq<Outcome> {
    if calls == [] then []
    else
      var n := |calls| - 1;
      Answers(run, calls[..n], w) + [Answer(run, MemoAfter(run, calls[..n], w), calls[n], After(run, calls[..n], w))]
  }

  /** No failed write of the run changed what a tool cached then reads. */
  ghost predicate Discreet(run: (string, string, nat) -> string, calls: seq<Call>, w: nat) {
    forall k :: 0 <= k < |calls| && FailedWrite(calls[k])
      ==> Unnoticed(run, MemoAfter(run, calls[..k], w), After(run, calls[..k], w), calls[k].effect)
  }

  ghost predicate AlwaysCoherent(run: (string, string, nat) -> string, calls: seq<Call>, w: nat) {
    forall k :: 0 <= k <= |calls| ==> Coherent(run, MemoAfter(run, calls[..k], w), After(run, calls[..k], w))
  }

  predicate AllPlain(calls: seq<Call>) { forall k :: 0 <= k < |calls| ==> Plain(calls[k].tool) }

  lemma PrefixStep(run: (string, string, nat) -> string, calls: seq<Call>, k: nat, w: nat)
    requires k < |calls|
    ensures After(run, calls[..k + 1], w) == Uncached(run, calls[k], After(run, calls[..k], w)).1
    ensures MemoAfter(run, calls[..k + 1], w) == StepMemo(run, MemoAfter(run, calls[..k], w), calls[k], After(run, calls[..k], w))
    ensures Answers(run, calls[..k + 1], w)
         == Answers(run, calls[..k], w) + [Answer(run, MemoAfter(run, calls[..k], w), calls[k], After(run, calls[..k], w))]
  {
    assert calls[..k + 1][..k] == calls[..k];
  }

  lemma {:induction false} DiscreetIsCoherent(run: (string, string, nat) -> string, calls: seq<Call>, w: nat, k: nat)
    requires AllPlain(calls) && Discreet(run, calls, w) && k <= |calls|
    ensures Coherent(run, MemoAfter(run, calls[..k], w), After(run, calls[..k], w))
  {
    if k > 0 {
      DiscreetIsCoherent(run, calls, w, k - 1);
      PrefixStep(run, calls, k - 1, w);
      StepCoherentExactly(run, MemoAfter(run, calls[..k - 1], w), calls[k - 1], After(run, calls[..k - 1], w));
    }
  }

  /** Exactly when the cache is coherent throughout a run. */
  lemma CoherentExactly(run: (string, string, nat) -> string, calls: seq<Call>, w: nat)
    requires AllPlain(calls)
    ensures AlwaysCoherent(run, calls, w) <==> Discreet(run, calls, w)
  {
    if Discreet(run, calls, w) {
      forall k | 0 <= k <= |calls|
        ensures Coherent(run, MemoAfter(run, calls[..k], w), After(run, calls[..k], w))
      {
        DiscreetIsCoherent(run, calls, w, k);
      }
    }
    if AlwaysCoherent(run, calls, w) {
      forall k | 0 <= k < |calls| && FailedWrite(calls[k])
        ensures Unnoticed(run, MemoAfter(run, calls[..k], w), After(run, calls[..k], w), calls[k].effect)
      {
        PrefixStep(run, calls, k, w);
        assert Coherent(run, MemoAfter(run, calls[..k + 1], w), After(run, calls[..k + 1], w));
        StepCoherentExactly(run, MemoAfter(run, calls[..k], w), calls[k], After(run, calls[..k], w));
      }
    }
  }

  lemma {:induction false} AnswersLength(run: (string, string, nat) -> string, calls: seq<Call>, w: nat)
    ensures |Answers(run, calls, w)| == |calls|
  {
    if calls != [] {
      AnswersLength(run, calls[..|calls| - 1], w);
    }
  }

  lemma {:induction false} AnswerAt(run: (string, string, nat) -> string, calls: seq<Call>, w: nat, k: nat)
    requires k < |calls|
    ensures |Answers(run, calls, w)| == |calls|
    ensures Answers(run, calls, w)[k] == Answer(run, MemoAfter(run, calls[..k], w), calls[k], After(run, calls[..k], w))
    decreases |calls|
  {
    var n := |calls| - 1;
    AnswersLength(run, calls, w);
    AnswersLength(run, calls[..n], w);
    assert calls[..|calls|] == calls;
    PrefixStep(run, calls, n, w);
    if k < n {
      AnswerAt(run, calls[..n], w, k);
      assert calls[..n][..k] == calls[..k];
    }
  }

  /** Over a run whose failed writes go unnoticed, call k is answered as without a cache
      except exactly when it is served an entry that a later gate or its handler would
      have refused; and then with what a fresh run would have returned. */
  lemma RunDiffersExactly(run: (string, string, nat) -> string, calls: seq<Call>, w: nat, k: nat)
    requires AllPlain(calls) && Discreet(run, calls, w) && k < |calls|
    ensures |Answers(run, calls, w)| == |calls|
    ensures var m, v := MemoAfter(run, calls[..k], w), After(run, calls[..k], w);
      && (Answers(run, calls, w)[k] != Uncached(run, calls[k], v).0 <==> Served(m, calls[k]) && !(calls[k].goes && calls[k].ok))
      && (Served(m, calls[k]) ==> Answers(run, calls, w)[k] == Content(run(calls[k].tool, calls[k].args, v)))
  {
    AnswerAt(run, calls, w, k);
    DiscreetIsCoherent(run, calls, w, k);
    AnswerDiffersExactly(run, MemoAfter(run, calls[..k], w), calls[k], After(run, calls[..k], w));
  }

  /** Call j is a cacheable read of key that succeeded, and no write succeeded between it
      and call k. */
  predicate Sources(calls: seq<Call>, j: nat, k: nat, key: string) {
    && j < k <= |calls| && calls[j].Read? && calls[j].cacheable && Succeeds(calls[j]) && Key(calls[j].tool, calls[j].args) == key
    && forall i :: j < i < k ==> !(calls[i].Write? && Succeeds(calls[i]))
  }

  /** An entry after a call was stored by it, or was there before and nothing cleared it. */
  lemma StepSource(run: (string, string, nat) -> string, m: Memo, c: Call, w: nat, key: string)
    requires Good(m) && key in StepMemo(run, m, c, w).cache
    ensures var t := StepMemo(run, m, c, w);
      || (c.Read? && c.cacheable && Succeeds(c) && Key(c.tool, c.args) == key && t.cache[key] == run(c.tool, c.args, w))
      || (key in m.cache && t.cache[key] == m.cache[key] && !(c.Write? && Succeeds(c)))
  {
    if Succeeds(c) && c.Read? { StoredGood(m, Key(c.tool, c.args), run(c.tool, c.args, w)); }
  }

  lemma SourcesOn(calls: seq<Call>, j: nat, k: nat, key: string)
    requires Sources(calls, j, k, key) && k < |calls| && !(calls[k].Write? && Succeeds(calls[k]))
    ensures Sources(calls, j, k + 1, key)
  {
  }

  /** Where a hit comes from: an earlier successful read of the key, with no successful
      write since, answered with that read's own result. */
  lemma {:induction false} HitHasSource(run: (string, string, nat) -> string, calls: seq<Call>, w: nat, k: nat, key: string) returns (j: nat)
    requires k <= |calls| && key in MemoAfter(run, calls[..k], w).cache
    ensures Sources(calls, j, k, key)
    ensures MemoAfter(run, calls[..k], w).cache[key] == run(calls[j].tool, calls[j].args, After(run, calls[..j], w))
    decreases k
  {
    assert calls[..0] == [];
    PrefixStep(run, calls, k - 1, w);
    var c, m, v := calls[k - 1], MemoAfter(run, calls[..k - 1], w), After(run, calls[..k - 1], w);
    StepSource(run, m, c, v, key);
    if c.Read? && c.cacheable && Succeeds(c) && Key(c.tool, c.args) == key && StepMemo(run, m, c, v).cache[key] == run(c.tool, c.args, v) {
      j := k - 1;
    } else {
      j := HitHasSource(run, calls, w, k - 1, key);
      SourcesOn(calls, j, k - 1, key);
    }
  }

  /** Over any run: a call the rules or a gate stopped, answered all the same, was a
      cacheable read the rules allowed, and its answer is what call j read, a successful
      read of the same key with no successful write since. */
  lemma StoppedYetAnswered(run: (string, string, nat) -> string, calls: seq<Call>, w: nat, k: nat) returns (j: nat)
    requires k < |calls| && |Answers(run, calls, w)| == |calls| && Answers(run, calls, w)[k] != Refused
    requires calls[k].decision.Deny? || !calls[k].goes
    ensures calls[k].Read? && calls[k].cacheable && calls[k].decision.Allow?
    ensures Sources(calls, j, k, Key(calls[k].tool, calls[k].args))
    ensures Answers(run, calls, w)[k] == Content(run(calls[j].tool, calls[j].args, After(run, calls[..j], w)))
  {
    AnswerAt(run, calls, w, k);
    OnlyAllowedReadsHit(run, MemoAfter(run, calls[..k], w), calls[k], After(run, calls[..k], w));
    j := HitHasSource(run, calls, w, k, Key(calls[k].tool, calls[k].args));
  }

  /** The claim that a hit passes the same gates as a fresh call is false: a read whose
      hook or steering check would refuse it is answered after one that passed. */
  lemma HitSkipsGates(run: (string, string, nat) -> string, w: nat)
    ensures var calls := [Read("t", "a", true, Allow, true, true), Read("t", "a", true, Allow, false, true)];
      && Answers(run, calls, w) == [Content(run("t", "a", w)), Content(run("t", "a", w))]
      && Uncached(run, calls[1], w).0 == Refused
  {
    var c, d := Read("t", "a", true, Allow, true, true), Read("t", "a", true, Allow, false, true);
    var calls := [c, d];
    assert calls[..0] == [] && calls[..1] == [c] && calls[..2] == calls;
    PrefixStep(run, calls, 0, w);
    PrefixStep(run, calls, 1, w);
    StoredGood(Empty, Key("t", "a"), run("t", "a", w));
    assert After(run, calls[..1], w) == w;
  }

  /** The claim that the cache never serves stale content is false: a failed write that
      changed what a cached tool reads leaves its entry to be served. */
  lemma FailedWriteServesStale(run: (string, string, nat) -> string, w: nat, v: nat)
    requires run("t", "a", v) != run("t", "a", w)
    ensures var read := Read("t", "a", true, Allow, true, true);
      var calls := [read, Write("u", "", Allow, true, false, v), read];
      Answers(run, calls, w) == [Content(run("t", "a", w)), Failed, Content(run("t", "a", w))]
      && Uncached(run, read, After(run, calls[..2], w)).0 == Content(run("t", "a", v))
  {
    var read, write := Read("t", "a", true, Allow, true, true), Write("u", "", Allow, true, false, v);
    var calls := [read, write, read];
    assert calls[..0] == [] && calls[..1] == [read] && calls[..2] == [read, write] && calls[..3] == calls;
    var m := Stored(Empty, Key("t", "a"), run("t", "a", w));
    StoredGood(Empty, Key("t", "a"), run("t", "a", w));
    PrefixStep(run, calls, 0, w);
    assert MemoAfter(run, calls[..1], w) == m && After(run, calls[..1], w) == w;
    PrefixStep(run, calls, 1, w);
    assert MemoAfter(run, calls[..2], w) == m && After(run, calls[..2], w) == v;
    PrefixStep(run, calls, 2, w);
  }

  // --------------------------------------------------------------------- the object

  class Session {
    const run: (string, string, nat) -> string
    var workspace: nat
    var cache: map<string, string>
    var order: seq<string>
    var bytes: int

    constructor (r: (string, string, nat) -> string, w: nat)
      ensures run == r && workspace == w && View() == Empty && Valid()
    {
      run, workspace, cache, order, bytes := r, w, map[], [], 0;
    }

    ghost function View(): Memo
      reads this
    {
      Memo(cache, order)
    }

    ghost predicate Valid()
      reads this
    {
      Good(View()) && bytes == Bytes(order, cache) && Fits(order, bytes)
    }

    method Clear()
      modifies this`cache, this`order, this`bytes
      ensures View() == Empty && Valid()
    {
      cache, order, bytes := map[], [], 0;
    }

    /** evictToolCacheLocked: oldest first, no more than the bounds need, never the
        newest. */
    method Evict()
      requires Good(View()) && bytes == Bytes(order, cache)
      modifies this`cache, this`order, this`bytes
      ensures Valid() && order == Trimmed(old(order), old(cache))
      ensures forall k :: k in cache ==> k in old(cache) && cache[k] == old(cache)[k]
    {
      ghost var whole := TrimmedIsLongest(order, cache);
      while |order| > MAX_ENTRIES || (bytes > MAX_BYTES && |order| > 1)
        invariant Distinct(order) && (forall k :: k in order <==> k in cache)
        invariant forall k :: k in cache ==> k in old(cache) && cache[k] == old(cache)[k]
        invariant bytes == Bytes(order, cache) == Bytes(order, old(cache))
        invariant Trimmed(order, old(cache)) == Trimmed(old(order), old(cache))
        decreases |order|
      {
        Forget();
        BytesFrame(order, cache, old(cache));
      }
    }

    /** One round of eviction. */
    method Forget()
      requires order != [] && Distinct(order) && (forall k :: k in order <==> k in cache) && bytes == Bytes(order, cache)
      modifies this`cache, this`order, this`bytes
      ensures order == old(order)[1..] && Distinct(order) && (forall k :: k in order <==> k in cache)
      ensures forall k :: k in cache ==> k in old(cache) && cache[k] == old(cache)[k]
      ensures bytes == Bytes(order, cache)
    {
      var oldest := order[0];
      BytesFrame(order[1..], cache, cache - {oldest});
      bytes := bytes - |cache[oldest]|;
      cache := cache - {oldest};
      order := order[1..];
    }

    /** SetTurnToolResult: drop the key's old place, append it, then evict. */
    method Set(key: string, result: string)
      requires Valid()
      modifies this`cache, this`order, this`bytes
      ensures Valid() && View() == Stored(old(View()), key, result)
    {
      WithoutIs(order, key);
      if key in cache {
        BytesWithout(order, key, cache);
        bytes := bytes - |cache[key]|;
        order := Without(order, key);
      } else {
        WithoutAbsent(order, key);
      }
      BytesFrame(order, cache, cache[key := result]);
      cache := cache[key := result];
      BytesAppend(order, key, cache);
      order := order + [key];
      bytes := bytes + |result|;
      AppendedDistinct(old(order), key);
      Evict();
      RestrictIs(old(cache)[key := result], order, cache);
    }

    /** The lookup in executeToolCall: the current policy evaluation comes first. */
    method Lookup(c: Call) returns (hit: Option<string>)
      ensures hit.Some? <==> c.Read? && c.cacheable && c.decision.Allow? && Key(c.tool, c.args) in cache
      ensures hit.Some? ==> hit.value == cache[Key(c.tool, c.args)]
    {
      hit := None;
      if c.Read? && c.cacheable && c.decision.Allow? && Key(c.tool, c.args) in cache {
        hit := Some(cache[Key(c.tool, c.args)]);
      }
    }

    /** One call: its answer, the cache and the workspace after it. */
    method Execute(c: Call) returns (out: Outcome)
      requires Valid()
      modifies this`workspace, this`cache, this`order, this`bytes
      ensures Valid() && View() == StepMemo(run, old(View()), c, old(workspace))
      ensures out == Answer(run, old(View()), c, old(workspace)) && workspace == Uncached(run, c, old(workspace)).1
    {
      var hit := Lookup(c);
      if hit.Some? {
        return Content(hit.value);
      }
      if c.decision.Deny? || !c.goes {
        return Refused;
      }
      if !c.ok {
        workspace := if c.Write? then c.effect else workspace;
        return Failed;
      }
      var text := run(c.tool, c.args, workspace);
      if c.Write? {
        workspace := c.effect;
        Clear();
      } else if c.cacheable {
        Set(Key(c.tool, c.args), text);
      }
      out := Content(text);
    }

    /** A whole sequential run from an empty cache. */
    method ExecuteAll(calls: seq<Call>) returns (outs: seq<Outcome>)
      requires Valid() && View() == Empty
      modifies this`workspace, this`cache, this`order, this`bytes
      ensures Valid() && View() == MemoAfter(run, calls, old(workspace)) && workspace == After(run, calls, old(workspace))
      ensures outs == Answers(run, calls, old(workspace))
    {
      outs := [];
      assert calls[..0] == [];
      for k := 0 to |calls|
        invariant Valid() && View() == MemoAfter(run, calls[..k], old(workspace)) && workspace == After(run, calls[..k], old(workspace))
        invariant outs == Answers(run, calls[..k], old(workspace))
      {
        PrefixStep(run, calls, k, old(workspace));
        var out := Execute(calls[k]);
        outs := outs + [out];
      }
      assert calls[..|calls|] == calls;
    }
  }
}
