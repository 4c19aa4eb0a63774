/** The turn's work budget (internal/agent/budget.go). */
module Budget {

  const MAX_OVERHEAD_TURNS := 20
  const PLAN_STEP_ITERATIONS := 8
  const MAX_MULTIPLIER := 4

  datatype Budget = Budget(tools: nat, overhead: nat, base: int, question: bool, steps: int, maxTools: int)

  function Min(a: int, b: int): int { if a < b then a else b }

  function Scaled(base: int, question: bool, steps: int): int {
    if base <= 0 || question || steps <= 0 then base
    else Min(base + steps * PLAN_STEP_ITERATIONS, base * MAX_MULTIPLIER)
  }

  function Fresh(base: int, question: bool, steps: int): Budget {
    Budget(0, 0, base, question, steps, Scaled(base, question, steps))
  }

  datatype Reason = Overhead | Exhausted | Going

  function ExhaustionReason(b: Budget): Reason {
    if b.overhead >= MAX_OVERHEAD_TURNS then Overhead
    else if b.maxTools > 0 && b.tools >= b.maxTools then Exhausted
    else Going
  }

  function Total(b: Budget): nat { b.tools + b.overhead }

  function Granted(b: Budget, steps: int): Budget {
    if steps <= b.steps then b
    else b.(steps := steps, maxTools := if Scaled(b.base, b.question, steps) > b.maxTools then Scaled(b.base, b.question, steps) else b.maxTools)
  }

  function Reclassified(b: Budget): Budget {
    if b.tools > 0 then b.(tools := b.tools - 1, overhead := b.overhead + 1) else b
  }

  /** One turn is charged, to work or to overhead, only while nothing is exhausted;
      between turns come grants, reclassifications and answered questions. */
  datatype Label = Turn(worked: bool) | Grant(steps: int) | Reclassify | Question

  predicate Enabled(b: Budget, l: Label) { l.Turn? ==> ExhaustionReason(b).Going? }

  function Do(b: Budget, l: Label): Budget {
    match l
    case Turn(worked) => if worked then b.(tools := b.tools + 1) else b.(overhead := b.overhead + 1)
    case Grant(steps) => Granted(b, steps)
    case Reclassify => Reclassified(b)
    case Question => b.(overhead := b.overhead + 1)
  }

  ghost predicate Reaches(b: Budget, ls: seq<Label>, t: Budget)
    decreases |ls|
  {
    if ls == [] then b == t else Enabled(b, ls[0]) && Reaches(Do(b, ls[0]), ls[1..], t)
  }

  function Turns(ls: seq<Label>): nat {
    if ls == [] then 0 else (if ls[0].Turn? then 1 else 0) + Turns(ls[1..])
  }

  /** The ceiling never leaves [base, 4 * base], and stays at base for a question. */
  predicate Bounded(b: Budget) {
    b.base <= b.maxTools && (b.base > 0 ==> b.maxTools <= (if b.question then b.base else MAX_MULTIPLIER * b.base))
    && (b.base <= 0 ==> b.maxTools == b.base)
  }

  lemma FreshBounded(base: int, question: bool, steps: int)
    ensures Bounded(Fresh(base, question, steps))
  {
  }

  /** No step lowers the ceiling or leaves its bounds; only turns and questions add to
      the total, so a reclassification preserves it. */
  lemma StepKeeps(b: Budget, l: Label)
    requires Bounded(b)
    ensures Bounded(Do(b, l)) && b.maxTools <= Do(b, l).maxTools && Do(b, l).base == b.base && Do(b, l).question == b.question
    ensures Total(Do(b, l)) == Total(b) + (if l.Turn? || l.Question? then 1 else 0)
  {
  }

  /** What each step moves: a turn adds to the work or to the overhead, a question and a
      reclassified turn to the overhead, the latter at the work's expense. */
  lemma StepMoves(b: Budget, l: Label)
    ensures var t := Do(b, l);
      && t.tools == b.tools + (if l == Turn(true) then 1 else if l.Reclassify? && b.tools > 0 then -1 else 0)
      && t.overhead == b.overhead + (if l == Turn(false) || l.Question? || (l.Reclassify? && b.tools > 0) then 1 else 0)
      && (!l.Grant? ==> t.steps == b.steps && t.maxTools == b.maxTools)
  {
  }

  /** Why no turn may be charged: the overhead cap is named first, then a positive ceiling
      the work has reached; without a ceiling the work alone never stops a turn. */
  lemma ReasonExactly(b: Budget)
    ensures ExhaustionReason(b).Overhead? <==> b.overhead >= 20
    ensures ExhaustionReason(b).Exhausted? <==> b.overhead < 20 && 0 < b.maxTools <= b.tools
  {
  }

  lemma {:induction false} RunKeeps(b: Budget, ls: seq<Label>, t: Budget)
    requires Bounded(b) && Reaches(b, ls, t)
    ensures Bounded(t) && b.maxTools <= t.maxTools && t.base == b.base && t.question == b.question
    ensures Total(t) >= Total(b) + Turns(ls)
    decreases |ls|
  {
    if ls != [] {
      StepKeeps(b, ls[0]);
      RunKeeps(Do(b, ls[0]), ls[1..], t);
    }
  }

  /** The most steps a plan had over a run. */
  function MostSteps(steps: int, ls: seq<Label>): int
    decreases |ls|
  {
    if ls == [] then steps
    else MostSteps(if ls[0].Grant? && ls[0].steps > steps then ls[0].steps else steps, ls[1..])
  }

  /** The ceiling a plan of so many steps gives: 8 more turns a step, at most four times
      the base, and nothing for a question or without a base. */
  ghost predicate CeilingOf(b: Budget, steps: int) {
    && (b.base > 0 && !b.question && steps > 0 ==> b.maxTools == Min(b.base + 8 * steps, 4 * b.base))
    && (b.base <= 0 || b.question || steps <= 0 ==> b.maxTools == b.base)
  }

  lemma {:induction false} CeilingKeeps(b: Budget, ls: seq<Label>, t: Budget)
    requires Reaches(b, ls, t) && CeilingOf(b, b.steps)
    ensures t.steps == MostSteps(b.steps, ls) && CeilingOf(t, t.steps) && t.base == b.base && t.question == b.question
    decreases |ls|
  {
    if ls != [] {
      CeilingKeeps(Do(b, ls[0]), ls[1..], t);
    }
  }

  /** Over every run the ceiling is that of the longest plan so far, whatever the order
      of the grants and whatever was charged between them. */
  lemma CeilingIsOfLongestPlan(base: int, question: bool, steps: int, ls: seq<Label>, t: Budget)
    requires Reaches(Fresh(base, question, steps), ls, t)
    ensures CeilingOf(t, MostSteps(steps, ls)) && t.base == base && t.question == question
  {
    CeilingKeeps(Fresh(base, question, steps), ls, t);
  }

  lemma {:induction false} TurnsUntilLast(b: Budget, ls: seq<Label>, t: Budget, spent: nat, ceiling: int)
    requires Bounded(b) && b.base > 0 && Reaches(b, ls, t) && t.maxTools <= ceiling
    requires spent <= Total(b) && Turns(ls) > 0
    ensures spent + Turns(ls) <= ceiling + MAX_OVERHEAD_TURNS - 1
    decreases |ls|
  {
    StepKeeps(b, ls[0]);
    var next := Do(b, ls[0]);
    if Turns(ls[1..]) > 0 {
      TurnsUntilLast(next, ls[1..], t, if ls[0].Turn? then spent + 1 else spent, ceiling);
    } else {
      RunKeeps(next, ls[1..], t);
    }
  }

  /** Every run with a positive base stops: at most 4 * base + 19 turns, base + 19 for a
      question, whatever is granted and reclassified between them. */
  lemma RunIsBounded(base: int, question: bool, steps: int, ls: seq<Label>, t: Budget)
    requires base > 0 && Reaches(Fresh(base, question, steps), ls, t)
    ensures Turns(ls) <= (if question then base else MAX_MULTIPLIER * base) + MAX_OVERHEAD_TURNS - 1
  {
    FreshBounded(base, question, steps);
    RunKeeps(Fresh(base, question, steps), ls, t);
    if Turns(ls) > 0 {
      TurnsUntilLast(Fresh(base, question, steps), ls, t, 0, t.maxTools);
    }
  }

  function Repeat(l: Label, n: nat): seq<Label> { if n == 0 then [] else [l] + Repeat(l, n - 1) }

  lemma {:induction false} RepeatReaches(b: Budget, worked: bool, n: nat)
    requires if worked then b.overhead < MAX_OVERHEAD_TURNS && (b.maxTools > 0 ==> b.tools + n <= b.maxTools)
             else b.overhead + n <= MAX_OVERHEAD_TURNS && (b.maxTools > 0 ==> b.tools < b.maxTools)
    ensures Reaches(b, Repeat(Turn(worked), n), if worked then b.(tools := b.tools + n) else b.(overhead := b.overhead + n))
    ensures Turns(Repeat(Turn(worked), n)) == n
    decreases n
  {
    if n > 0 {
      assert Repeat(Turn(worked), n)[1..] == Repeat(Turn(worked), n - 1);
      RepeatReaches(Do(b, Turn(worked)), worked, n - 1);
    }
  }

  lemma {:induction false} Joined(b: Budget, ls: seq<Label>, m: Budget, rest: seq<Label>, t: Budget)
    requires Reaches(b, ls, m) && Reaches(m, rest, t)
    ensures Reaches(b, ls + rest, t) && Turns(ls + rest) == Turns(ls) + Turns(rest)
    decreases |ls|
  {
    if ls == [] {
      assert ls + rest == rest;
    } else {
      Joined(Do(b, ls[0]), ls[1..], m, rest, t);
      assert (ls + rest)[1..] == ls[1..] + rest;
    }
  }

  /** The bound is exact: work up to one unit short, overhead to one short of its cap,
      and one more turn. */
  lemma BoundIsReached(base: int) returns (ls: seq<Label>, t: Budget)
    requires base > 0
    ensures Reaches(Fresh(base, false, base), ls, t) && Turns(ls) == MAX_MULTIPLIER * base + MAX_OVERHEAD_TURNS - 1
  {
    var b := Fresh(base, false, base);
    var w := b.(tools := MAX_MULTIPLIER * base - 1);
    var o := w.(overhead := MAX_OVERHEAD_TURNS - 1);
    RepeatReaches(b, true, MAX_MULTIPLIER * base - 1);
    RepeatReaches(w, false, MAX_OVERHEAD_TURNS - 1);
    RepeatReaches(o, true, 1);
    t := o.(tools := MAX_MULTIPLIER * base);
    Joined(b, Repeat(Turn(true), MAX_MULTIPLIER * base - 1), w, Repeat(Turn(false), MAX_OVERHEAD_TURNS - 1), o);
    ls := Repeat(Turn(true), MAX_MULTIPLIER * base - 1) + Repeat(Turn(false), MAX_OVERHEAD_TURNS - 1);
    Joined(b, ls, o, Repeat(Turn(true), 1), t);
    ls := ls + Repeat(Turn(true), 1);
  }

  /** Without a positive base there is no bound at all on the work. */
  lemma NoBaseNoBound(base: int, question: bool, steps: int, n: nat) returns (ls: seq<Label>, t: Budget)
    requires base <= 0
    ensures Reaches(Fresh(base, question, steps), ls, t) && Turns(ls) == n
  {
    ls, t := Repeat(Turn(true), n), Fresh(base, question, steps).(tools := n);
    RepeatReaches(Fresh(base, question, steps), true, n);
  }

  class TurnBudget {
    var tools: nat
    var overhead: nat
    const base: int
    const question: bool
    var steps: int
    var maxTools: int

    ghost function View(): Budget
      reads this
    {
      Budget(tools, overhead, base, question, steps, maxTools)
    }

    constructor (base: int, question: bool, steps: int)
      ensures View() == Fresh(base, question, steps)
    {
      this.tools, this.overhead, this.base, this.question, this.steps := 0, 0, base, question, steps;
      this.maxTools := Scaled(base, question, steps);
    }

    /** The ceiling only ever grows. */
    method GrantSteps(n: int)
      modifies this`steps, this`maxTools
      ensures View() == Do(old(View()), Grant(n))
    {
      if n <= steps {
        return;
      }
      steps := n;
      var scaled := Scaled(base, question, steps);
      if scaled > maxTools {
        maxTools := scaled;
      }
    }

    method ReclassifyAsOverhead()
      modifies this`tools, this`overhead
      ensures View() == Do(old(View()), Reclassify) && Total(View()) == Total(old(View()))
    {
      if tools > 0 {
        tools := tools - 1;
        overhead := overhead + 1;
      }
    }

    method Charge(worked: bool) returns (charged: bool)
      modifies this`tools, this`overhead
      ensures charged == Enabled(old(View()), Turn(worked))
      ensures View() == if charged then Do(old(View()), Turn(worked)) else old(View())
    {
      charged := !(overhead >= MAX_OVERHEAD_TURNS || (maxTools > 0 && tools >= maxTools));
      if charged {
        if worked {
          tools := tools + 1;
        } else {
          overhead := overhead + 1;
        }
      }
    }

    /** Never pressure without a ceiling; otherwise what is left, which a turn that may
        still be charged finds positive. */
    method RemainingTools() returns (left: int)
      ensures maxTools <= 0 ==> left == MAX_OVERHEAD_TURNS
      ensures maxTools > 0 && ExhaustionReason(View()).Going? ==> left == maxTools - tools > 0
    {
      left := if maxTools <= 0 then MAX_OVERHEAD_TURNS else maxTools - tools;
    }
  }
}
