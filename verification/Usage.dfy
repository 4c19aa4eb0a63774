/** Usage rows in telemetry (internal/acp/turn.go newUsageRows, internal/acp/rundetail.go
    dropRun, internal/db/turnmetrics.go RecentTurnMetricsForSession). */
module Usage {
  import opened Common

  const ROW_LIMIT := 200

  predicate Rising(ids: seq<nat>) { forall i, j :: 0 <= i < j < |ids| ==> ids[i] < ids[j] }

  /** The session's newest rows, oldest first. */
  function Recent(table: seq<nat>): seq<nat> {
    if |table| <= ROW_LIMIT then table else table[|table| - ROW_LIMIT..]
  }

  function Top(ids: seq<nat>, hw: nat): nat { if ids == [] then hw else ids[|ids| - 1] }

  /** What a pass over the first n rows reports: each one above everything reported so far. */
  function RowsTo(ids: seq<nat>, n: nat, hw: nat): seq<nat>
    requires n <= |ids|
  {
    if n == 0 then []
    else var r := RowsTo(ids, n - 1, hw);
         if ids[n - 1] <= Top(r, hw) then r else r + [ids[n - 1]]
  }

  function NewRows(ids: seq<nat>, hw: nat): seq<nat> { RowsTo(ids, |ids|, hw) }

  lemma {:induction false} RowsToRise(ids: seq<nat>, n: nat, hw: nat)
    requires n <= |ids|
    ensures Rising(RowsTo(ids, n, hw)) && forall i :: 0 <= i < |RowsTo(ids, n, hw)| ==> hw < RowsTo(ids, n, hw)[i] && RowsTo(ids, n, hw)[i] in ids
  {
    if n > 0 {
      RowsToRise(ids, n - 1, hw);
    }
  }

  lemma NewRowsRise(ids: seq<nat>, hw: nat)
    ensures Rising(NewRows(ids, hw)) && forall i :: 0 <= i < |NewRows(ids, hw)| ==> hw < NewRows(ids, hw)[i] && NewRows(ids, hw)[i] in ids
  {
    RowsToRise(ids, |ids|, hw);
  }

  /** How many of the table's first n rows are at most the mark hw, when it rises. */
  function BelowTo(table: seq<nat>, n: nat, hw: nat): (m: nat)
    requires n <= |table|
    ensures m <= n && (m > 0 ==> table[m - 1] <= hw) && (m < n ==> table[m] > hw)
  {
    if n == 0 then 0 else if table[n - 1] <= hw then n else BelowTo(table, n - 1, hw)
  }

  function Below(table: seq<nat>, hw: nat): nat { BelowTo(table, |table|, hw) }

  /** Position n is where a rising table passes the mark. */
  predicate Splits(table: seq<nat>, hw: nat, n: nat) {
    n <= |table| && (n > 0 ==> table[n - 1] <= hw) && (n < |table| ==> table[n] > hw)
  }

  lemma BelowSplits(table: seq<nat>, hw: nat)
    ensures Splits(table, hw, Below(table, hw))
  {
  }

  lemma SplitsOnce(table: seq<nat>, hw: nat, n: nat, m: nat)
    requires Rising(table) && Splits(table, hw, n) && Splits(table, hw, m)
    ensures n == m
  {
    assert forall i, j :: 0 <= i <= j < |table| ==> table[i] <= table[j];
  }

  lemma RowsStep(ids: seq<nat>, n: nat, hw: nat, m: nat)
    requires 0 < n <= |ids| && m <= |ids| && RowsTo(ids, n - 1, hw) == if n - 1 <= m then [] else ids[m..n - 1]
    requires if n <= m then ids[n - 1] <= hw else hw < ids[n - 1] && (n - 1 > m ==> ids[n - 2] < ids[n - 1])
    ensures RowsTo(ids, n, hw) == if n <= m then [] else ids[m..n]
  {
    if n > m { assert ids[m..n] == ids[m..n - 1] + [ids[n - 1]]; }
  }

  /** Against a rising table's split, position by position. */
  lemma SideOfSplit(ids: seq<nat>, hw: nat, m: nat, n: nat)
    requires Rising(ids) && Splits(ids, hw, m) && n < |ids|
    ensures if n < m then ids[n] <= hw else hw < ids[n] && (n > m ==> ids[n - 1] < ids[n])
  {
  }

  lemma {:induction false} RowsOfRising(ids: seq<nat>, n: nat, hw: nat, m: nat)
    requires Rising(ids) && Splits(ids, hw, m) && n <= |ids|
    ensures RowsTo(ids, n, hw) == if n <= m then [] else ids[m..n]
  {
    if n > 0 {
      RowsOfRising(ids, n - 1, hw, m);
      SideOfSplit(ids, hw, m, n - 1);
      RowsStep(ids, n, hw, m);
    }
  }

  lemma NewRowsOfRising(ids: seq<nat>, hw: nat, m: nat)
    requires Rising(ids) && Splits(ids, hw, m)
    ensures NewRows(ids, hw) == ids[m..]
  {
    RowsOfRising(ids, |ids|, hw, m);
  }

  function Max(a: int, b: int): int { if a < b then b else a }

  /** The split of what the limit leaves. */
  lemma RecentSplits(table: seq<nat>, hw: nat, n: nat)
    requires Rising(table) && Splits(table, hw, n)
    ensures var m := Max(0, |table| - ROW_LIMIT); Rising(table[m..]) && Splits(table[m..], hw, Max(0, n - m))
  {
    var m := Max(0, |table| - ROW_LIMIT);
    assert forall i :: 0 <= i < |table| - m ==> table[m..][i] == table[m + i];
  }

  lemma SliceTwice(table: seq<nat>, m: nat, k: nat)
    requires m + k <= |table|
    ensures table[m..][k..] == table[m + k..]
  {
  }

  /** One pass reports the rows above the mark that are among the newest 200. */
  lemma PassReports(table: seq<nat>, hw: nat, n: nat)
    requires Rising(table) && Splits(table, hw, n)
    ensures NewRows(Recent(table), hw) == table[Max(n, |table| - ROW_LIMIT)..]
  {
    var m := Max(0, |table| - ROW_LIMIT);
    RecentSplits(table, hw, n);
    NewRowsOfRising(table[m..], hw, Max(0, n - m));
    SliceTwice(table, m, Max(0, n - m));
    assert m == 0 ==> table[m..] == table;
  }

  /** So it reports every row above the mark exactly when at most 200 are. */
  lemma PassIsComplete(table: seq<nat>, hw: nat)
    requires Rising(table)
    ensures NewRows(Recent(table), hw) == table[Below(table, hw)..] <==> |table| - Below(table, hw) <= ROW_LIMIT
  {
    BelowSplits(table, hw);
    PassReports(table, hw, Below(table, hw));
  }

  // --------------------------------------------------------- overlapping calls

  /** hw is the session's mark; pending holds the size of the table each call in flight
      saw; lost marks a pass that could not see every new row. */
  datatype State = State(table: seq<nat>, hw: nat, pending: map<nat, nat>, out: seq<nat>, lost: bool)

  const Start := State([], 0, map[], [], false)

  datatype Label = Insert(id: nat) | Query(c: nat) | Collect(c: nat)

  predicate Enabled(s: State, l: Label) {
    match l
    case Insert(id) => id > Top(s.table, 0)
    case Query(c) => c !in s.pending
    case Collect(c) => c in s.pending && s.pending[c] <= |s.table|
  }

  function Do(s: State, l: Label): State
    requires Enabled(s, l)
  {
    match l
    case Insert(id) => s.(table := s.table + [id])
    case Query(c) => s.(pending := s.pending[c := |s.table|])
    case Collect(c) =>
      var seen := s.table[..s.pending[c]];
      var rows := NewRows(Recent(seen), s.hw);
      s.(pending := s.pending - {c}, out := s.out + rows, hw := Top(rows, s.hw),
         lost := s.lost || |seen| - Below(seen, s.hw) > ROW_LIMIT)
  }

  ghost predicate Reaches(s: State, ls: seq<Label>, t: State)
    decreases |ls|
  {
    if ls == [] then s == t else Enabled(s, ls[0]) && Reaches(Do(s, ls[0]), ls[1..], t)
  }

  ghost predicate Skipped(s: State) {
    exists i :: 0 <= i < |s.table| && s.table[i] <= s.hw && s.table[i] !in s.out
  }

  ghost predicate Inv(s: State) {
    && Rising(s.table) && (forall i :: 0 <= i < |s.table| ==> s.table[i] > 0)
    && (forall c :: c in s.pending ==> s.pending[c] <= |s.table|)
    && Rising(s.out) && s.hw == Top(s.out, 0)
    && (if s.lost then Skipped(s) else s.out <= s.table)
  }

  /** Rows above the mark continue a rising report that ends at it. */
  lemma RisesOn(out: seq<nat>, rows: seq<nat>, hw: nat)
    requires Rising(out) && hw == Top(out, 0) && Rising(rows) && forall i :: 0 <= i < |rows| ==> hw < rows[i]
    ensures Rising(out + rows) && Top(rows, hw) == Top(out + rows, 0) && hw <= Top(rows, hw)
  {
  }

  lemma CollectRises(s: State, c: nat)
    requires Inv(s) && Enabled(s, Collect(c))
    ensures var t := Do(s, Collect(c)); Rising(t.out) && t.hw == Top(t.out, 0) && s.hw <= t.hw
  {
    var rows := NewRows(Recent(s.table[..s.pending[c]]), s.hw);
    NewRowsRise(Recent(s.table[..s.pending[c]]), s.hw);
    RisesOn(s.out, rows, s.hw);
  }

  /** With nothing lost so far the mark splits what the call saw where the report ends. */
  lemma MarkSplits(s: State, n: nat)
    requires Inv(s) && !s.lost && n <= |s.table|
    ensures Splits(s.table[..n], s.hw, if n <= |s.out| then n else |s.out|) && Rising(s.table[..n])
  {
    var j := |s.out|;
    assert j > 0 ==> s.table[j - 1] == s.out[j - 1] == s.hw;
    assert 0 < n < j ==> s.table[n - 1] < s.table[j - 1];
    assert 0 < j < n ==> s.table[j - 1] < s.table[j];
  }

  lemma CollectPass(s: State, c: nat)
    requires Inv(s) && Enabled(s, Collect(c)) && !s.lost
    ensures var seen := s.table[..s.pending[c]];
      var n := if |seen| <= |s.out| then |seen| else |s.out|;
      && Do(s, Collect(c)).out == s.out + seen[Max(n, |seen| - ROW_LIMIT)..]
      && (Do(s, Collect(c)).lost <==> |seen| - n > ROW_LIMIT)
  {
    var seen := s.table[..s.pending[c]];
    var n := if |seen| <= |s.out| then |seen| else |s.out|;
    MarkSplits(s, s.pending[c]);
    BelowSplits(seen, s.hw);
    SplitsOnce(seen, s.hw, n, Below(seen, s.hw));
    PassReports(seen, s.hw, n);
  }

  lemma PrefixGrows(table: seq<nat>, out: seq<nat>, seen: seq<nat>)
    requires out <= table && seen <= table && |out| < |seen|
    ensures out + seen[|out|..] == seen
  {
    assert out == seen[..|out|];
  }

  lemma CollectExtends(s: State, c: nat)
    requires Inv(s) && Enabled(s, Collect(c)) && !s.lost && !Do(s, Collect(c)).lost
    ensures Do(s, Collect(c)).out <= s.table
  {
    CollectPass(s, c);
    var seen := s.table[..s.pending[c]];
    if |seen| > |s.out| {
      PrefixGrows(s.table, s.out, seen);
    }
  }

  lemma CollectSkips(s: State, c: nat)
    requires Inv(s) && Enabled(s, Collect(c)) && !s.lost && Do(s, Collect(c)).lost
    ensures Skipped(Do(s, Collect(c)))
  {
    CollectPass(s, c);
    CollectRises(s, c);
    var seen, t, k := s.table[..s.pending[c]], Do(s, Collect(c)), |s.out|;
    var m := |seen| - ROW_LIMIT;
    assert t.out == s.out + seen[m..] && k < m;
    assert t.hw == seen[|seen| - 1];
    assert s.table[k] == seen[k] < seen[|seen| - 1];
    assert forall i :: 0 <= i < k ==> s.out[i] == s.table[i] < s.table[k];
    assert forall i :: m <= i < |seen| ==> seen[i] == s.table[i] > s.table[k];
    assert s.table[k] !in s.out && s.table[k] !in seen[m..];
  }

  lemma StaysSkipped(s: State, c: nat)
    requires Inv(s) && Enabled(s, Collect(c)) && s.lost
    ensures Skipped(Do(s, Collect(c)))
  {
    var i :| 0 <= i < |s.table| && s.table[i] <= s.hw && s.table[i] !in s.out;
    var t := Do(s, Collect(c));
    CollectRises(s, c);
    NewRowsRise(Recent(s.table[..s.pending[c]]), s.hw);
    assert t.table[i] <= t.hw && t.table[i] !in t.out;
  }

  lemma StepKeeps(s: State, l: Label)
    requires Inv(s) && Enabled(s, l)
    ensures Inv(Do(s, l)) && s.out <= Do(s, l).out
  {
    match l {
      case Insert(id) =>
        var t := Do(s, l);
        if s.lost {
          var i :| 0 <= i < |s.table| && s.table[i] <= s.hw && s.table[i] !in s.out;
          assert t.table[i] == s.table[i];
        }
      case Query(c) =>
        if s.lost {
          var i :| 0 <= i < |s.table| && s.table[i] <= s.hw && s.table[i] !in s.out;
          assert Do(s, l).table[i] == s.table[i];
        }
      case Collect(c) =>
        CollectRises(s, c);
        if s.lost { StaysSkipped(s, c); } else if Do(s, l).lost { CollectSkips(s, c); } else { CollectExtends(s, c); }
    }
  }

  lemma {:induction false} RunKeeps(s: State, ls: seq<Label>, t: State)
    requires Inv(s) && Reaches(s, ls, t)
    ensures Inv(t) && s.out <= t.out
    decreases |ls|
  {
    if ls != [] {
      StepKeeps(s, ls[0]);
      RunKeeps(Do(s, ls[0]), ls[1..], t);
    }
  }

  /** However calls overlap with inserts and with each other, the reported ids rise
      strictly, so none is reported twice; and the report is an unbroken prefix of the
      table exactly when no pass faced more than 200 rows above its mark. */
  lemma ReportsRise(ls: seq<Label>, t: State)
    requires Reaches(Start, ls, t)
    ensures Rising(t.out)
    ensures t.out <= t.table <==> !t.lost
  {
    RunKeeps(Start, ls, t);
    assert t.out <= t.table && t.out != [] ==> t.table[|t.out| - 1] == t.hw;
    assert t.out <= t.table ==> forall i :: 0 <= i < |t.out| ==> t.table[i] == t.out[i];
  }

  lemma PrefixOfBoth(table: seq<nat>, out: seq<nat>, seen: seq<nat>)
    requires out <= table && seen <= table && |seen| <= |out|
    ensures seen <= out
  {
    assert seen == table[..|seen|] == out[..|seen|];
  }

  /** While nothing was lost, a call's own pass completes the report of every row its query
      saw, and it adds no row that was reported before. */
  lemma SeenIsReported(ls: seq<Label>, s: State, c: nat)
    requires Reaches(Start, ls, s) && Enabled(s, Collect(c)) && !Do(s, Collect(c)).lost
    ensures s.table[..s.pending[c]] <= Do(s, Collect(c)).out <= s.table && s.out <= Do(s, Collect(c)).out
    ensures s.pending[c] <= |s.out| ==> Do(s, Collect(c)).out == s.out
    ensures Do(s, Collect(c)).pending == s.pending - {c} && Do(s, Collect(c)).table == s.table
  {
    RunKeeps(Start, ls, s);
    CollectPass(s, c);
    CollectExtends(s, c);
    var seen := s.table[..s.pending[c]];
    if |seen| > |s.out| {
      PrefixGrows(s.table, s.out, seen);
    } else {
      assert seen[|seen|..] == [];
      PrefixOfBoth(s.table, s.out, seen);
    }
  }

  /** A query sees the whole table of its moment, and keeps seeing it until it collects. */
  lemma {:induction false} QuerySees(s: State, ls: seq<Label>, t: State, c: nat)
    requires c !in s.pending && Reaches(Do(s, Query(c)), ls, t) && Collect(c) !in ls
    ensures c in t.pending && t.pending[c] == |s.table| && s.table <= t.table
  {
    StillSees(Do(s, Query(c)), ls, t, c);
  }

  lemma SeesStep(s: State, l: Label, c: nat)
    requires c in s.pending && Enabled(s, l) && l != Collect(c)
    ensures c in Do(s, l).pending && Do(s, l).pending[c] == s.pending[c] && s.table <= Do(s, l).table
  {
  }

  lemma {:induction false} StillSees(s: State, ls: seq<Label>, t: State, c: nat)
    requires c in s.pending && Reaches(s, ls, t) && Collect(c) !in ls
    ensures c in t.pending && t.pending[c] == s.pending[c] && s.table <= t.table
    decreases |ls|
  {
    if ls != [] {
      SeesStep(s, ls[0], c);
      StillSees(Do(s, ls[0]), ls[1..], t, c);
    }
  }

  // --------------------------------------------------------------------- the mark

  /** The loop over the newest-first rows, from the oldest. */
  method CollectNew(ids: seq<nat>, mark: nat) returns (out: seq<nat>, hw: nat)
    ensures out == NewRows(Reversed(ids), mark) && hw == Top(out, mark)
  {
    out, hw := [], mark;
    var i := |ids|;
    while i > 0
      invariant 0 <= i <= |ids| && out == RowsTo(Reversed(ids), |ids| - i, mark) && hw == Top(out, mark)
    {
      i := i - 1;
      if ids[i] > hw {
        hw := ids[i];
        out := out + [ids[i]];
      }
    }
  }

  class Telemetry {
    var usageHW: map<string, nat>

    constructor ()
      ensures usageHW == map[]
    {
      usageHW := map[];
    }

    function Mark(session: string): nat
      reads this
    {
      if session in usageHW then usageHW[session] else 0
    }

    /** newUsageRows: the query's rows come newest first; None is a failed query. */
    method NewUsageRows(session: string, rows: Option<seq<nat>>) returns (out: seq<nat>)
      modifies this
      ensures rows.None? ==> out == [] && usageHW == old(usageHW)
      ensures rows.Some? ==> out == NewRows(Reversed(rows.value), old(Mark(session)))
      ensures rows.Some? ==> usageHW == old(usageHW)[session := Top(out, old(Mark(session)))]
    {
      out := [];
      if rows.None? {
        return;
      }
      var hw;
      out, hw := CollectNew(rows.value, Mark(session));
      usageHW := usageHW[session := hw];
    }

    method DropRun(session: string)
      modifies this
      ensures usageHW == old(usageHW) - {session} && Mark(session) == 0
      ensures forall other :: other != session ==> Mark(other) == old(Mark(other))
    {
      usageHW := usageHW - {session};
    }
  }

  function Reversed(ids: seq<nat>): (r: seq<nat>)
    ensures |r| == |ids| && forall k :: 0 <= k < |ids| ==> r[k] == ids[|ids| - 1 - k]
  {
    seq(|ids|, k requires 0 <= k < |ids| => ids[|ids| - 1 - k])
  }
}
