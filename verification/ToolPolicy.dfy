/** From a tool call's arguments to its handler (internal/agent/execute.go,
    internal/tools/policy/admission.go): policy evaluation, approval, user edits,
    pre_tool_use rewrites and admission at launch.

    Everything outside (rules, authority snapshots, the user, hooks, steering) is a
    World whose answers may differ at every moment; the clock advances with each
    question, and the log records what was asked and answered. */
module ToolPolicy {
  import opened Common

  const MAX_STALE_RETRIES := 3

  datatype Value = Text(text: string) | Other(id: nat)
  type Args = map<string, Value>

  /** A policy call describes a command by its shell facts and anything else by its
      argument map. */
  datatype Call = ShellCall(invocation: string, tool: string, command: string, place: nat)
                | PlainCall(invocation: string, tool: string, args: Args)

  datatype Decision = Deny | Confirm | Allow
  datatype Evaluation = Evaluation(decision: Decision, system: bool)

  datatype Authorization = Authorization(snapshot: nat, call: Call, approvedBy: string, consumed: bool)

  datatype Consent = WaitError | Reply(approved: bool, edited: string, key: string)
  datatype HookDecision = Silent | Block | Halt
  datatype HookOut = HookOut(failed: bool, decision: HookDecision, rewrite: string)

  datatype ShellContext = ShellContext(testCommand: string, place: nat)

  datatype World = World(
    parse: string -> Option<Args>, marshal: Args -> string, valid: (string, string) -> bool,
    rules: (nat, nat, Call) -> Option<Evaluation>, snapshot: nat -> nat, system: nat -> bool,
    refusing: nat -> bool, ending: nat -> bool, shell: nat -> ShellContext,
    consent: nat -> Consent, auto: nat -> bool, hook: (nat, string) -> HookOut, stopped: nat -> bool)

  /** JSON encoding loses nothing, and an object is never encoded as nothing. */
  ghost predicate RoundTrips(w: World) {
    forall m :: w.parse(w.marshal(m)) == Some(m) && w.marshal(m) != ""
  }

  datatype Event =
    | Evaluated(proof: nat, call: Call, ev: Option<Evaluation>)
    | Prompted(args: string, reply: Consent)
    | Hooked(args: string, out: HookOut)
    | Began(proof: nat, at: nat, r: Admit)
    | Started(args: string, argsMap: Args, proof: nat)

  datatype Admit = Admitted | Stale | StaleProof | Refusal

  predicate IsShell(tool: string) { tool in {"shell.run", "test.run", "shell.sudo"} }

  function ParseArgs(w: World, args: string): Option<Args> {
    if args == "" then Some(map[]) else w.parse(args)
  }

  function CommandOf(m: Args): string {
    if "command" in m && m["command"].Text? then m["command"].text else ""
  }

  function PolicyCall(c: ShellContext, invocation: string, tool: string, m: Args): Call {
    if IsShell(tool) && CommandOf(m) != "" then ShellCall(invocation, tool, CommandOf(m), c.place)
    else if tool == "test.run" && c.testCommand != "" then ShellCall(invocation, tool, c.testCommand, c.place)
    else PlainCall(invocation, tool, m)
  }

  /** A world in which nothing stands in the call's way: its facts are always allowed,
      the authority never moves, and no hook, steering or ending interferes. */
  ghost predicate Calm(w: World, tool: string, invocation: string, args: string) {
    && ParseArgs(w, args).Some? && w.valid(tool, args)
    && (forall t: nat, s: nat :: w.rules(t, w.snapshot(t), PolicyCall(w.shell(s), invocation, tool, ParseArgs(w, args).value)) == Some(Evaluation(Allow, false)))
    && (forall t: nat :: w.snapshot(t) == w.snapshot(0))
    && (forall t: nat :: w.hook(t, args) == HookOut(false, Silent, ""))
    && (forall t: nat :: !w.stopped(t)) && (forall t: nat :: !w.refusing(t)) && (forall t: nat :: !w.ending(t))
  }

  /** The call is exactly this tool's with these arguments: the whole map for an
      ordinary tool, the command for a shell tool that names one. */
  predicate Describes(call: Call, invocation: string, tool: string, m: Args) {
    && call.invocation == invocation && call.tool == tool
    && (call.PlainCall? ==> call.args == m && (IsShell(tool) ==> CommandOf(m) == ""))
    && (call.ShellCall? ==> IsShell(tool) && (CommandOf(m) != "" ==> call.command == CommandOf(m))
                            && (CommandOf(m) == "" ==> tool == "test.run"))
  }

  // -------------------------------------------------------------- the authorizer

  /** What BeginTool asks of the live rules before it takes the lease. */
  ghost predicate Entitled(w: World, at: nat, p: Authorization) {
    var ev := w.rules(at, w.snapshot(at), p.call);
    ev.Some? && !ev.value.decision.Deny? && (ev.value.system ==> w.system(w.snapshot(at)))
    && (ev.value.decision.Confirm? ==> p.approvedBy != "")
  }

  /** A lease is there to take: entitled, and then under the gate nothing refuses or
      ends and the authority is still the proof's. */
  ghost predicate Admissible(w: World, at: nat, p: Authorization) {
    Entitled(w, at, p) && w.snapshot(at + 1) == p.snapshot && !w.refusing(at + 1) && !w.ending(at + 1)
  }

  /** Entitled, but the authority moved after the proof was evaluated. */
  ghost predicate Outdated(w: World, at: nat, p: Authorization) {
    Entitled(w, at, p) && !w.refusing(at + 1) && w.snapshot(at + 1) != p.snapshot
  }

  class Authorizer {
    const world: World
    var now: nat
    var proofs: seq<Authorization>
    var held: bool
    var log: seq<Event>

    constructor (w: World)
      ensures world == w && now == 0 && proofs == [] && !held && log == []
    {
      world, now, proofs, held, log := w, 0, [], false, [];
    }

    method Evaluate(call: Call) returns (p: nat, ev: Option<Evaluation>)
      modifies this
      ensures ev == world.rules(old(now), world.snapshot(old(now)), call)
      ensures p == |old(proofs)|
      ensures proofs == old(proofs) + (if ev.Some? then [Authorization(world.snapshot(old(now)), call, "", false)] else [])
      ensures log == old(log) + [Evaluated(p, call, ev)] && held == old(held) && now == old(now) + 1
    {
      ev := world.rules(now, world.snapshot(now), call);
      p := |proofs|;
      if ev.Some? {
        proofs := proofs + [Authorization(world.snapshot(now), call, "", false)];
      }
      log := log + [Evaluated(p, call, ev)];
      now := now + 1;
    }

    method ApproveExact(p: nat, key: string) returns (ok: bool)
      requires p < |proofs|
      modifies this`proofs
      ensures ok == !old(proofs)[p].consumed
      ensures proofs == if ok then old(proofs)[p := old(proofs)[p].(approvedBy := key)] else old(proofs)
    {
      ok := !proofs[p].consumed;
      if ok {
        proofs := proofs[p := proofs[p].(approvedBy := key)];
      }
    }

    method BeginTool(p: nat, call: Call) returns (r: Admit)
      requires p < |proofs| && !held
      modifies this`now, this`held, this`log
      ensures held == r.Admitted? && log == old(log) + [Began(p, old(now), r)] && now == old(now) + 2
      ensures r.Admitted? <==> call == proofs[p].call && !proofs[p].consumed && Admissible(world, old(now), proofs[p])
      ensures r.Stale? <==> call == proofs[p].call && !proofs[p].consumed && Outdated(world, old(now), proofs[p])
      ensures r.StaleProof? <==> call != proofs[p].call || proofs[p].consumed
    {
      r := Refusal;
      if call != proofs[p].call || proofs[p].consumed {
        r := StaleProof;
      } else {
        var ev := world.rules(now, world.snapshot(now), call);
        if ev.Some? && !ev.value.decision.Deny? && !(ev.value.system && !world.system(world.snapshot(now)))
           && !(ev.value.decision.Confirm? && proofs[p].approvedBy == "") && !world.refusing(now + 1)
        {
          if world.snapshot(now + 1) != proofs[p].snapshot {
            r := Stale;
          } else if !world.ending(now + 1) {
            held := true;
            r := Admitted;
          }
        }
      }
      log := log + [Began(p, now, r)];
      now := now + 2;
    }

    method Commit(p: nat) returns (ok: bool)
      requires p < |proofs|
      modifies this`proofs
      ensures ok == !old(proofs)[p].consumed && proofs == old(proofs)[p := old(proofs)[p].(consumed := true)]
    {
      ok := !proofs[p].consumed;
      proofs := proofs[p := proofs[p].(consumed := true)];
    }

    method Release()
      modifies this`held
      ensures !held
    {
      held := false;
    }

    method Prompt(args: string) returns (reply: Consent)
      modifies this`now, this`log
      ensures now == old(now) + 1 && reply == world.consent(old(now)) && log == old(log) + [Prompted(args, reply)]
    {
      reply := world.consent(now);
      log := log + [Prompted(args, reply)];
      now := now + 1;
    }

    method RunHook(args: string) returns (out: HookOut)
      modifies this`now, this`log
      ensures now == old(now) + 1 && out == world.hook(old(now), args) && log == old(log) + [Hooked(args, out)]
    {
      out := world.hook(now, args);
      log := log + [Hooked(args, out)];
      now := now + 1;
    }

    method Start(args: string, m: Args, p: nat)
      modifies this`log
      ensures log == old(log) + [Started(args, m, p)]
    {
      log := log + [Started(args, m, p)];
    }

    method Ask() returns (at: nat)
      modifies this`now
      ensures at == old(now) && now == old(now) + 1
    {
      at := now;
      now := now + 1;
    }
  }

  // ---------------------------------------------------------- what a proof rests on

  /** The prompt whose key approved proof p either showed these arguments or is where
      the user typed them. */
  predicate Consented(e: Event, args: string, key: string) {
    e.Prompted? && e.reply.Reply? && e.reply.approved && e.reply.key == key && (e.args == args || e.reply.edited == args)
  }

  /** Since position from, proof p was allowed, or evaluated as Confirm and consented to. */
  ghost predicate Justified(log: seq<Event>, from: nat, p: nat, auth: Authorization, args: string) {
    exists i :: from <= i < |log| && Grants(log, from, i, p, auth, args)
  }

  predicate IsAllow(e: Event, p: nat, call: Call) {
    e.Evaluated? && e.proof == p && e.call == call && e.ev.Some? && e.ev.value.decision.Allow?
  }

  predicate IsConfirm(e: Event, p: nat, call: Call) {
    e.Evaluated? && e.proof == p && e.call == call && e.ev.Some? && e.ev.value.decision.Confirm?
  }

  ghost predicate Grants(log: seq<Event>, from: nat, i: nat, p: nat, auth: Authorization, args: string)
    requires i < |log|
  {
    IsAllow(log[i], p, auth.call)
    || (IsConfirm(log[i], p, auth.call) && exists j :: from <= j < |log| && Consented(log[j], args, auth.approvedBy))
  }

  lemma StillJustified(log: seq<Event>, more: seq<Event>, from: nat, p: nat, auth: Authorization, args: string)
    requires Justified(log, from, p, auth, args)
    ensures Justified(log + more, from, p, auth, args)
  {
    var i :| from <= i < |log| && Grants(log, from, i, p, auth, args);
    assert (log + more)[i] == log[i];
    if !IsAllow(log[i], p, auth.call) {
      var j :| from <= j < |log| && Consented(log[j], args, auth.approvedBy);
      assert (log + more)[j] == log[j];
    }
    assert Grants(log + more, from, i, p, auth, args);
  }

  /** What rests on a part of the log rests on any part that holds it. */
  lemma JustifiedEarlier(log: seq<Event>, from: nat, later: nat, p: nat, auth: Authorization, args: string)
    requires from <= later && Justified(log, later, p, auth, args)
    ensures Justified(log, from, p, auth, args)
  {
    var i :| later <= i < |log| && Grants(log, later, i, p, auth, args);
    assert Grants(log, from, i, p, auth, args);
  }

  lemma AllowJustifies(log: seq<Event>, from: nat, p: nat, auth: Authorization, args: string, i: nat)
    requires from <= i < |log| && IsAllow(log[i], p, auth.call)
    ensures Justified(log, from, p, auth, args)
  {
    assert Grants(log, from, i, p, auth, args);
  }

  lemma ConsentJustifies(log: seq<Event>, from: nat, p: nat, auth: Authorization, args: string, i: nat, j: nat)
    requires from <= i < |log| && IsConfirm(log[i], p, auth.call)
    requires from <= j < |log| && Consented(log[j], args, auth.approvedBy)
    ensures Justified(log, from, p, auth, args)
  {
    assert Grants(log, from, i, p, auth, args);
  }

  /** No proof was consumed in between, and none was lost. */
  predicate SpendsNothing(before: seq<Authorization>, after: seq<Authorization>) {
    && |before| <= |after|
    && (forall k :: 0 <= k < |before| ==> after[k].consumed == before[k].consumed)
    && (forall k :: |before| <= k < |after| ==> !after[k].consumed)
  }

  // --------------------------------------------------------- one policy decision

  datatype PolicyResult = Stop(fatal: bool) | Go(args: string, argsMap: Args, proof: nat, approved: bool)

  predicate Extends(log: seq<Event>, before: seq<Event>) {
    before <= log && forall k :: |before| <= k < |log| ==> log[k].Evaluated? || log[k].Prompted?
  }

  /** A settled result: the map is the parse of the arguments, the proof is fresh, for
      exactly these facts, and was allowed or consented to. */
  ghost predicate Settled(a: Authorizer, from: nat, tool: string, invocation: string, args: string, m: Args, p: nat)
    reads a
  {
    && ParseArgs(a.world, args) == Some(m)
    && p < |a.proofs| && !a.proofs[p].consumed && Describes(a.proofs[p].call, invocation, tool, m)
    && Justified(a.log, from, p, a.proofs[p], args)
  }

  /** A user edit: a new command in the same map, or a whole new argument object. */
  function EditedArgs(w: World, tool: string, argsMap: Args, edited: string): Option<(string, Args)> {
    if IsShell(tool) then Some((w.marshal(argsMap["command" := Text(edited)]), argsMap["command" := Text(edited)]))
    else match ParseArgs(w, edited) { case Some(m) => Some((edited, m)) case None => None }
  }

  // ------------------------------------------------------------------ what happens

  /** Where a call gets to: stopped, or cleared at that moment for these arguments under
      this proof. */
  datatype Course = Barred(fatal: bool) | Cleared(at: nat, args: string, argsMap: Args, auth: Authorization, approved: bool)

  function Fresh(w: World, t: nat, call: Call, key: string): Authorization { Authorization(w.snapshot(t), call, key, false) }

  /** The one course a call takes in a given world, from moment t: about to settle its
      arguments, with so many passes allowed. */
  ghost function FromSettling(w: World, tool: string, invocation: string, t: nat, args: string, passes: nat): Course
    decreases 2 * passes, 0
  {
    var m := ParseArgs(w, args);
    if passes == 0 || m.None? || !w.valid(tool, args) then Barred(false)
    else
      var call := PolicyCall(w.shell(t), invocation, tool, m.value);
      var ev := w.rules(t + 1, w.snapshot(t + 1), call);
      if ev.None? then Barred(false)
      else FromJudged(w, tool, invocation, t + 2, args, m.value, Fresh(w, t + 1, call, ""), ev.value, passes - 1)
  }

  /** Once the rules have judged it. */
  ghost function FromJudged(w: World, tool: string, invocation: string, t: nat, args: string, m: Args, auth: Authorization, ev: Evaluation, left: nat): Course
    decreases 2 * left + 1, 4
  {
    if ev.decision.Deny? || (ev.decision.Confirm? && ev.system) then Barred(false)
    else if ev.decision.Allow? then FromHooking(w, tool, invocation, t, args, m, auth, false, left)
    else match w.consent(t)
         case WaitError => Barred(true)
         case Reply(approved, edited, key) =>
           if approved then FromAnswered(w, tool, invocation, t + 1, args, m, auth, edited, key, left) else Barred(false)
  }

  /** Once the user has approved it. */
  ghost function FromAnswered(w: World, tool: string, invocation: string, t: nat, args: string, m: Args, auth: Authorization, edited: string, key: string, left: nat): Course
    decreases 2 * left + 1, 3
  {
    if w.auto(t) then
      var call := PolicyCall(w.shell(t), invocation, tool, m);
      var ev := w.rules(t + 1, w.snapshot(t + 1), call);
      if ev.None? then Barred(true)
      else if !ev.value.decision.Allow? then Barred(false)
      else if edited != "" then FromEdited(w, tool, invocation, t + 2, m, edited, key, left)
      else FromHooking(w, tool, invocation, t + 2, args, m, Fresh(w, t + 1, call, ""), true, left)
    else if edited != "" then FromEdited(w, tool, invocation, t + 1, m, edited, key, left)
    else FromHooking(w, tool, invocation, t + 1, args, m, auth.(approvedBy := key), true, left)
  }

  /** Once its edit, typed into the prompt of key, is to be applied. */
  ghost function FromEdited(w: World, tool: string, invocation: string, t: nat, argsMap: Args, edited: string, key: string, left: nat): Course
    decreases 2 * left + 1, 2
  {
    var e := EditedArgs(w, tool, argsMap, edited);
    if e.None? then Barred(true)
    else
      var (args, m) := e.value;
      var call := PolicyCall(w.shell(t), invocation, tool, m);
      var ev := w.rules(t + 1, w.snapshot(t + 1), call);
      if ev.None? then Barred(true)
      else if ev.value.decision.Deny? then Barred(false)
      else if ev.value.decision.Allow? then FromHooking(w, tool, invocation, t + 2, args, m, Fresh(w, t + 1, call, ""), true, left)
      else if !IsShell(tool) then FromHooking(w, tool, invocation, t + 2, args, m, Fresh(w, t + 1, call, key), true, left)
      else match w.consent(t + 2)
           case WaitError => Barred(true)
           case Reply(approved, _, again) =>
             if approved then FromHooking(w, tool, invocation, t + 3, args, m, Fresh(w, t + 1, call, again), true, left) else Barred(false)
  }

  /** Once the policy has settled its arguments and proof. */
  ghost function FromHooking(w: World, tool: string, invocation: string, t: nat, args: string, m: Args, auth: Authorization, approved: bool, left: nat): Course
    decreases 2 * left + 1, 1
  {
    var out := w.hook(t, args);
    if out.failed || out.decision.Block? then Barred(false)
    else if out.decision.Halt? then Barred(true)
    else if out.rewrite != "" then FromSettling(w, tool, invocation, t + 1, out.rewrite, left)
    else Cleared(t + 1, args, m, auth, approved)
  }

  /** The proof a lease is taken under, with so many retries left. */
  ghost function Leased(w: World, t: nat, auth: Authorization, retries: nat): Option<Authorization>
    decreases retries
  {
    if Admissible(w, t, auth) then Some(auth)
    else if retries == 0 || !Outdated(w, t, auth) then None
    else
      var ev := w.rules(t + 2, w.snapshot(t + 2), auth.call);
      if ev.Some? && ev.value.decision.Allow? then Leased(w, t + 3, Fresh(w, t + 2, auth.call, ""), retries - 1) else None
  }

  /** Once the hooks have let it through. */
  ghost function FromPassing(w: World, tool: string, c: Course): Course {
    if c.Barred? then c
    else if w.stopped(c.at) || w.stopped(c.at + 1) || w.stopped(c.at + 2) then Barred(false)
    else if IsShell(tool) then c
    else match Leased(w, c.at + 3, c.auth, MAX_STALE_RETRIES)
         case None => Barred(false)
         case Some(auth) => c.(auth := auth)
  }

  /** A whole call, asked at t. */
  ghost function CallCourse(w: World, t: nat, tool: string, invocation: string, given: string): Course {
    FromPassing(w, tool, FromSettling(w, tool, invocation, t, given, 2))
  }

  /** A settled result is the next stage of the course, and a stop its end. */
  ghost predicate Onward(a: Authorizer, tool: string, invocation: string, course: Course, r: PolicyResult, left: nat)
    reads a
  {
    match r
    case Stop(fatal) => course == Barred(fatal)
    case Go(args, m, p, approved) =>
      p < |a.proofs|
      && course == FromHooking(a.world, tool, invocation, a.now, args, m, a.proofs[p], approved, left)
  }

  /** Consent to an edit whose evaluation asks for it: an edited command is shown to
      the user again, an ordinary edit was typed into the prompt that approved it. */
  method ConsentToEdit(a: Authorizer, tool: string, args: string, p: nat, key: string, prompt: nat, ghost from: nat)
    returns (stop: Option<bool>)
    requires p < |a.proofs| && !a.proofs[p].consumed
    requires a.log != [] && IsConfirm(a.log[|a.log| - 1], p, a.proofs[p].call)
    requires from <= prompt < |a.log| && from < |a.log| && (!IsShell(tool) ==> Consented(a.log[prompt], args, key))
    modifies a
    ensures Extends(a.log, old(a.log)) && |a.proofs| == |old(a.proofs)| && SpendsNothing(old(a.proofs), a.proofs) && a.held == old(a.held)
    ensures stop.None? ==> a.proofs[p].call == old(a.proofs)[p].call && Justified(a.log, from, p, a.proofs[p], args)
    ensures if !IsShell(tool) then stop.None? && a.now == old(a.now) && a.proofs[p] == old(a.proofs)[p].(approvedBy := key)
            else match a.world.consent(old(a.now))
                 case WaitError => stop == Some(true)
                 case Reply(approved, _, again) =>
                   if approved then stop.None? && a.now == old(a.now) + 1 && a.proofs[p] == old(a.proofs)[p].(approvedBy := again)
                   else stop == Some(false)
  {
    var evaluated := |a.log| - 1;
    var consentKey, consent := key, prompt;
    if IsShell(tool) {
      var reply := a.Prompt(args);
      if reply.WaitError? {
        return Some(true);
      }
      if !reply.approved {
        return Some(false);
      }
      consentKey, consent := reply.key, |a.log| - 1;
    }
    var ok := a.ApproveExact(p, consentKey);
    if !ok {
      return Some(true);
    }
    ConsentJustifies(a.log, from, p, a.proofs[p], args, evaluated, consent);
    stop := None;
  }

  /** The second half of handlePolicyDecision: a user edit is a new invocation, and
      its facts are evaluated again. */
  method ApplyEdit(a: Authorizer, tool: string, invocation: string, argsMap: Args, edited: string, key: string, prompt: nat, ghost from: nat,
                   ghost left: nat)
    returns (r: PolicyResult)
    requires RoundTrips(a.world) && edited != ""
    requires from <= prompt < |a.log| && a.log[prompt].Prompted? && a.log[prompt].reply == Reply(true, edited, key)
    modifies a
    ensures Extends(a.log, old(a.log)) && SpendsNothing(old(a.proofs), a.proofs) && a.held == old(a.held)
    ensures r.Go? ==> r.approved && Settled(a, from, tool, invocation, r.args, r.argsMap, r.proof)
    ensures r.Go? ==> EditedArgs(a.world, tool, argsMap, edited) == Some((r.args, r.argsMap))
    ensures Onward(a, tool, invocation, FromEdited(a.world, tool, invocation, old(a.now), argsMap, edited, key, left), r, left)
  {
    var e := EditedArgs(a.world, tool, argsMap, edited);
    if e.None? {
      return Stop(true);
    }
    var (args, m) := e.value;
    var at := a.Ask();
    var p, ev := a.Evaluate(PolicyCall(a.world.shell(at), invocation, tool, m));
    if ev.None? {
      return Stop(true);
    }
    if ev.value.decision.Deny? {
      return Stop(false);
    }
    if ev.value.decision.Confirm? {
      var stop := ConsentToEdit(a, tool, args, p, key, prompt, from);
      if stop.Some? {
        return Stop(stop.value);
      }
    } else {
      AllowJustifies(a.log, from, p, a.proofs[p], args, |a.log| - 1);
    }
    r := Go(args, m, p, true);
  }

  /** An approved prompt: the proof is approved by the prompt's key, unless Auto was
      turned on meanwhile and the live rules must allow the call themselves. */
  method ApprovePrompt(a: Authorizer, tool: string, invocation: string, args: string, argsMap: Args, p: nat, evaluated: nat, key: string,
                       ghost edited: string, ghost from: nat, ghost left: nat)
    returns (r: PolicyResult)
    requires ParseArgs(a.world, args) == Some(argsMap)
    requires p < |a.proofs| && !a.proofs[p].consumed && Describes(a.proofs[p].call, invocation, tool, argsMap)
    requires from <= evaluated < |a.log| && IsConfirm(a.log[evaluated], p, a.proofs[p].call)
    requires Consented(a.log[|a.log| - 1], args, key)
    modifies a
    ensures Extends(a.log, old(a.log)) && SpendsNothing(old(a.proofs), a.proofs) && a.held == old(a.held)
    ensures r.Go? ==> r.approved && r.args == args && r.argsMap == argsMap && Settled(a, from, tool, invocation, args, argsMap, r.proof)
    ensures Onward(a, tool, invocation, FromAnswered(a.world, tool, invocation, old(a.now), args, argsMap, old(a.proofs)[p], "", key, left), r, left)
    ensures edited != "" ==> (FromAnswered(a.world, tool, invocation, old(a.now), args, argsMap, old(a.proofs)[p], edited, key, left)
                              == if r.Stop? then Barred(r.fatal) else FromEdited(a.world, tool, invocation, a.now, argsMap, edited, key, left))
  {
    var prompt := |a.log| - 1;
    var at := a.Ask();
    if a.world.auto(at) {
      var q, live := a.Evaluate(PolicyCall(a.world.shell(at), invocation, tool, argsMap));
      if live.None? {
        return Stop(true);
      }
      if !live.value.decision.Allow? {
        return Stop(false);
      }
      AllowJustifies(a.log, from, q, a.proofs[q], args, |a.log| - 1);
      r := Go(args, argsMap, q, true);
    } else {
      var ok := a.ApproveExact(p, key);
      if !ok {
        return Stop(true);
      }
      ConsentJustifies(a.log, from, p, a.proofs[p], args, evaluated, prompt);
      r := Go(args, argsMap, p, true);
    }
  }

  /** handlePolicyDecision.  An early stop is fatal (an error to the caller) or a
      refusal told to the model. */
  method HandlePolicyDecision(a: Authorizer, tool: string, invocation: string, args: string, argsMap: Args, p: nat, ev: Evaluation,
                              ghost left: nat)
    returns (r: PolicyResult)
    requires RoundTrips(a.world) && ParseArgs(a.world, args) == Some(argsMap)
    requires p < |a.proofs| && !a.proofs[p].consumed && Describes(a.proofs[p].call, invocation, tool, argsMap)
    requires a.log != [] && a.log[|a.log| - 1] == Evaluated(p, a.proofs[p].call, Some(ev))
    modifies a
    ensures Extends(a.log, old(a.log)) && SpendsNothing(old(a.proofs), a.proofs) && a.held == old(a.held)
    ensures r.Go? ==> Settled(a, |old(a.log)| - 1, tool, invocation, r.args, r.argsMap, r.proof)
    ensures ev.decision.Deny? || (ev.decision.Confirm? && ev.system) ==> r == Stop(false) && a.log == old(a.log)
    ensures ev.decision.Allow? ==> r == Go(args, argsMap, p, false) && a.log == old(a.log) && a.proofs == old(a.proofs)
    ensures r.Go? ==> (r.approved <==> ev.decision.Confirm?)
    ensures r.Go? && r.approved ==> !ev.system && Approved(a.world, a.log, |old(a.log)|, tool, args, argsMap, r)
    ensures Onward(a, tool, invocation, FromJudged(a.world, tool, invocation, old(a.now), args, argsMap, old(a.proofs)[p], ev, left), r, left)
  {
    var evaluated := |a.log| - 1;
    if ev.decision.Deny? || (ev.decision.Confirm? && ev.system) {
      return Stop(false);
    }
    if ev.decision.Allow? {
      AllowJustifies(a.log, evaluated, p, a.proofs[p], args, evaluated);
      return Go(args, argsMap, p, false);
    }
    var reply := a.Prompt(args);
    if reply.WaitError? {
      return Stop(true);
    }
    if !reply.approved {
      return Stop(false);
    }
    var prompt := |a.log| - 1;
    r := ApprovePrompt(a, tool, invocation, args, argsMap, p, evaluated, reply.key, reply.edited, evaluated, left);
    if r.Go? && reply.edited != "" {
      r := ApplyEdit(a, tool, invocation, argsMap, reply.edited, reply.key, prompt, evaluated, left);
    }
  }

  /** The user's answer came first, and what goes on is what it approved: the
      arguments shown, or the edit typed. */
  predicate Approved(w: World, log: seq<Event>, at: nat, tool: string, args: string, argsMap: Args, r: PolicyResult)
    requires r.Go?
  {
    && at < |log| && log[at].Prompted? && log[at].args == args && log[at].reply.Reply? && log[at].reply.approved
    && (if log[at].reply.edited == "" then r.args == args && r.argsMap == argsMap
        else EditedArgs(w, tool, argsMap, log[at].reply.edited) == Some((r.args, r.argsMap)))
  }

  // ------------------------------------------------------------------- admission

  /** Nothing but attempts, each followed by an evaluation if it is not the last. */
  predicate Attempting(log: seq<Event>, before: seq<Event>) {
    before <= log && forall k :: |before| <= k < |log| ==> if (k - |before|) % 2 == 0 then log[k].Began? else log[k].Evaluated?
  }

  ghost predicate AllowedSince(log: seq<Event>, from: nat, p: nat, call: Call) {
    exists i :: from <= i < |log| && IsAllow(log[i], p, call)
  }

  predicate NothingRun(log: seq<Event>, before: seq<Event>) {
    before <= log && forall k :: |before| <= k < |log| ==> !log[k].Started? && !log[k].Hooked?
  }

  /** One more evaluation after a stale snapshot: only a live Allow will do. */
  method Renew(a: Authorizer, call: Call) returns (q: Option<nat>)
    modifies a
    ensures a.held == old(a.held) && SpendsNothing(old(a.proofs), a.proofs) && old(a.proofs) <= a.proofs
    ensures old(a.log) <= a.log && |a.log| == |old(a.log)| + 1 && a.log[|old(a.log)|].Evaluated?
    ensures q.Some? ==> q.value < |a.proofs| && a.proofs[q.value].call == call && !a.proofs[q.value].consumed && IsAllow(a.log[|old(a.log)|], q.value, call)
    ensures var ev := a.world.rules(old(a.now), a.world.snapshot(old(a.now)), call);
      if ev.Some? && ev.value.decision.Allow? then q.Some? && a.proofs[q.value] == Fresh(a.world, old(a.now), call, "") && a.now == old(a.now) + 1 else q.None?
  {
    var p, ev := a.Evaluate(call);
    q := if ev.Some? && ev.value.decision.Allow? then Some(p) else None;
  }

  method Attempt(a: Authorizer, p: nat, call: Call) returns (r: Admit)
    requires !a.held && p < |a.proofs| && a.proofs[p].call == call && !a.proofs[p].consumed
    modifies a`now, a`held, a`log
    ensures a.held == r.Admitted? && !r.StaleProof?
    ensures old(a.log) <= a.log && |a.log| == |old(a.log)| + 1 && a.log[|old(a.log)|].Began? && a.log[|old(a.log)|].proof == p
    ensures a.log[|old(a.log)|].at == old(a.now) && (r.Admitted? <==> Admissible(a.world, old(a.now), a.proofs[p]))
    ensures a.now == old(a.now) + 2 && (r.Stale? <==> Outdated(a.world, old(a.now), a.proofs[p]))
  {
    r := a.BeginTool(p, call);
  }

  /** After so many stale attempts since log0: proof q, for the same call, is the first
      one or was newly allowed, and nothing was spent or run. */
  ghost predicate Seeking(a: Authorizer, log0: seq<Event>, proofs0: seq<Authorization>, call: Call, p: nat, q: nat, attempt: nat)
    reads a
  {
    && !a.held && SpendsNothing(proofs0, a.proofs) && proofs0 <= a.proofs
    && Attempting(a.log, log0) && |a.log| == |log0| + 2 * attempt
    && q < |a.proofs| && a.proofs[q].call == call && !a.proofs[q].consumed
    && (q != p ==> AllowedSince(a.log, |log0|, q, call))
  }

  /** The end of the search: admitted live under proof q, or refused. */
  ghost predicate Sought(a: Authorizer, log0: seq<Event>, proofs0: seq<Authorization>, call: Call, p: nat, q: nat, attempt: nat, r: Admit)
    reads a
  {
    && a.held == r.Admitted? && !r.StaleProof? && SpendsNothing(proofs0, a.proofs) && proofs0 <= a.proofs
    && Attempting(a.log, log0) && |log0| + 2 * attempt < |a.log| <= |log0| + 2 * attempt + 2
    && q < |a.proofs| && a.proofs[q].call == call && !a.proofs[q].consumed
    && (q != p ==> AllowedSince(a.log, |log0|, q, call))
    && (r.Admitted? ==> a.log[|a.log| - 1].Began? && a.log[|a.log| - 1].proof == q && Admissible(a.world, a.log[|a.log| - 1].at, a.proofs[q]))
  }

  /** One attempt, and after a moved snapshot, if more are allowed, a renewed proof. */
  method TryLease(a: Authorizer, call: Call, p: nat, q: nat, attempt: nat, ghost log0: seq<Event>, ghost proofs0: seq<Authorization>)
    returns (r: Admit, renewed: Option<nat>)
    requires attempt <= MAX_STALE_RETRIES && Seeking(a, log0, proofs0, call, p, q, attempt)
    modifies a
    ensures if renewed.Some? then attempt < MAX_STALE_RETRIES && Seeking(a, log0, proofs0, call, p, renewed.value, attempt + 1)
            else Sought(a, log0, proofs0, call, p, q, attempt, r) && (r.Stale? ==> attempt == MAX_STALE_RETRIES)
    ensures Leased(a.world, old(a.now), old(a.proofs)[q], MAX_STALE_RETRIES - attempt)
         == if renewed.Some? then Leased(a.world, a.now, a.proofs[renewed.value], MAX_STALE_RETRIES - attempt - 1)
            else if r.Admitted? then Some(a.proofs[q]) else None
  {
    renewed := None;
    r := Attempt(a, q, call);
    if attempt < MAX_STALE_RETRIES && r.Stale? {
      renewed := Renew(a, call);
      if renewed.None? {
        r := Refusal;
      }
    }
  }

  /** admitOrdinaryTool: a moved snapshot is retried at most three times, with a
      newly evaluated Allow each time; every other refusal ends it, and no refusal
      leaves the lease held.  The proof it comes with is for exactly this call, so a
      stale proof is never its answer. */
  method AdmitOrdinaryTool(a: Authorizer, invocation: string, tool: string, m: Args, p: nat) returns (r: Admit, q: nat, ghost tried: nat)
    requires !IsShell(tool) && !a.held
    requires p < |a.proofs| && !a.proofs[p].consumed && a.proofs[p].call == PlainCall(invocation, tool, m)
    modifies a
    ensures tried <= MAX_STALE_RETRIES && (r.Stale? ==> tried == MAX_STALE_RETRIES)
    ensures Sought(a, old(a.log), old(a.proofs), PlainCall(invocation, tool, m), p, q, tried, r)
    ensures Leased(a.world, old(a.now), old(a.proofs)[p], MAX_STALE_RETRIES) == if r.Admitted? then Some(a.proofs[q]) else None
  {
    q, tried := p, 0;
    var attempt := 0;
    var call := PlainCall(invocation, tool, m);
    while true
      invariant tried == attempt <= MAX_STALE_RETRIES
      invariant Seeking(a, old(a.log), old(a.proofs), call, p, q, attempt)
      invariant Leased(a.world, old(a.now), old(a.proofs)[p], MAX_STALE_RETRIES) == Leased(a.world, a.now, a.proofs[q], MAX_STALE_RETRIES - attempt)
      decreases MAX_STALE_RETRIES - attempt
    {
      var renewed;
      r, renewed := TryLease(a, call, p, q, attempt, old(a.log), old(a.proofs));
      if renewed.None? {
        return;
      }
      q := renewed.value;
      attempt, tried := attempt + 1, tried + 1;
    }
  }

  // ------------------------------------------------------------ the rewrite loop

  datatype Pass = Ended(fatal: bool) | Rewritten(args: string) | Passed(args: string, argsMap: Args, proof: nat, approved: bool)

  predicate Lets(out: HookOut) { !out.failed && out.decision.Silent? && out.rewrite == "" }
  predicate Rewrites(out: HookOut) { !out.failed && out.decision.Silent? && out.rewrite != "" }

  function Hooks(log: seq<Event>): nat {
    if log == [] then 0 else Hooks(log[..|log| - 1]) + (if log[|log| - 1].Hooked? then 1 else 0)
  }

  lemma {:induction false} HooksQuiet(log: seq<Event>, before: seq<Event>)
    requires before <= log && forall k :: |before| <= k < |log| ==> !log[k].Hooked?
    ensures Hooks(log) == Hooks(before)
    decreases |log|
  {
    if |log| > |before| {
      HooksQuiet(log[..|log| - 1], before);
    } else {
      assert log == before;
    }
  }

  lemma HooksStep(log: seq<Event>, e: Event)
    ensures Hooks(log + [e]) == Hooks(log) + (if e.Hooked? then 1 else 0)
  {
    assert (log + [e])[..|log|] == log;
  }

  /** The pass left only evaluations and prompts, then possibly its one hook. */
  predicate OnePassLog(log: seq<Event>, before: seq<Event>, hooked: bool) {
    before <= log && (hooked ==> |log| > |before| && log[|log| - 1].Hooked?)
    && forall k :: |before| <= k < |log| - (if hooked then 1 else 0) ==> log[k].Evaluated? || log[k].Prompted?
  }

  /** Parse, validate, evaluate and settle the policy for these arguments. */
  method SettlePolicy(a: Authorizer, tool: string, invocation: string, args: string, ghost passes: nat) returns (r: PolicyResult)
    requires RoundTrips(a.world) && passes > 0
    modifies a
    ensures Extends(a.log, old(a.log)) && SpendsNothing(old(a.proofs), a.proofs) && a.held == old(a.held)
    ensures r.Go? ==> a.world.valid(tool, args) && Settled(a, |old(a.log)|, tool, invocation, r.args, r.argsMap, r.proof)
    ensures r.Go? && !r.approved ==> r.args == args
    ensures Onward(a, tool, invocation, FromSettling(a.world, tool, invocation, old(a.now), args, passes), r, passes - 1)
  {
    var m := ParseArgs(a.world, args);
    if m.None? || !a.world.valid(tool, args) {
      return Stop(false);
    }
    var at := a.Ask();
    var p, ev := a.Evaluate(PolicyCall(a.world.shell(at), invocation, tool, m.value));
    if ev.None? {
      return Stop(false);
    }
    r := HandlePolicyDecision(a, tool, invocation, args, m.value, p, ev.value, passes - 1);
  }

  /** A pass through the hook is the next stage of the course, and an end its end. */
  ghost predicate PassesOn(a: Authorizer, tool: string, invocation: string, course: Course, r: Pass, left: nat)
    reads a
  {
    match r
    case Ended(fatal) => course == Barred(fatal)
    case Rewritten(args) => course == FromSettling(a.world, tool, invocation, a.now, args, left)
    case Passed(args, m, p, approved) =>
      p < |a.proofs| && course == Cleared(a.now, args, m, a.proofs[p], approved)
  }

  /** One iteration of the loop: the hook runs on what the policy settled. */
  method OnePass(a: Authorizer, tool: string, invocation: string, args: string, ghost passes: nat) returns (r: Pass)
    requires RoundTrips(a.world) && passes > 0
    modifies a
    ensures SpendsNothing(old(a.proofs), a.proofs) && a.held == old(a.held)
    ensures OnePassLog(a.log, old(a.log), !r.Ended?) || (r.Ended? && OnePassLog(a.log, old(a.log), true))
    ensures r.Rewritten? ==> Rewrites(a.log[|a.log| - 1].out) && r.args == a.log[|a.log| - 1].out.rewrite
    ensures r.Passed? ==> Lets(a.log[|a.log| - 1].out) && a.log[|a.log| - 1].args == r.args
                          && Settled(a, |old(a.log)|, tool, invocation, r.args, r.argsMap, r.proof)
    ensures r.Passed? && !r.approved ==> a.world.valid(tool, r.args)
    ensures PassesOn(a, tool, invocation, FromSettling(a.world, tool, invocation, old(a.now), args, passes), r, passes - 1)
  {
    var s := SettlePolicy(a, tool, invocation, args, passes);
    if s.Stop? {
      return Ended(s.fatal);
    }
    ghost var settled := a.log;
    var out := a.RunHook(s.args);
    if out.failed || out.decision.Block? {
      return Ended(false);
    }
    if out.decision.Halt? {
      return Ended(true);
    }
    if out.rewrite != "" {
      return Rewritten(out.rewrite);
    }
    StillJustified(settled, [Hooked(s.args, out)], |old(a.log)|, s.proof, a.proofs[s.proof], s.args);
    r := Passed(s.args, s.argsMap, s.proof, s.approved);
  }

  /** Every hook of this call but the last asked for a rewrite. */
  predicate RewritesOnly(log: seq<Event>, from: nat, to: nat) {
    forall k :: from <= k < to && k < |log| && log[k].Hooked? ==> Rewrites(log[k].out)
  }

  predicate NoLaunch(log: seq<Event>, before: seq<Event>) {
    before <= log && forall k :: |before| <= k < |log| ==> !log[k].Started? && !log[k].Began?
  }

  /** A pass after earlier rewriting passes. */
  lemma PassAdds(log: seq<Event>, mid: seq<Event>, before: seq<Event>)
    requires OnePassLog(log, mid, true) || OnePassLog(log, mid, false)
    requires NoLaunch(mid, before) && RewritesOnly(mid, |before|, |mid|)
    ensures NoLaunch(log, before) && (log != [] ==> RewritesOnly(log, |before|, |log| - 1))
    ensures log != [] && (log[|log| - 1].Hooked? ==> Rewrites(log[|log| - 1].out)) ==> RewritesOnly(log, |before|, |log|)
  {
  }

  lemma PassCounts(log: seq<Event>, before: seq<Event>)
    requires OnePassLog(log, before, true)
    ensures Hooks(log) == Hooks(before) + 1
  {
    HooksQuiet(log[..|log| - 1], before);
    HooksStep(log[..|log| - 1], log[|log| - 1]);
    assert log == log[..|log| - 1] + [log[|log| - 1]];
  }

  /** The hooks of a call so far, each of which asked for a rewrite. */
  predicate Rewriting(log: seq<Event>, before: seq<Event>, rewrites: nat) {
    NoLaunch(log, before) && RewritesOnly(log, |before|, |log|) && Hooks(log) == Hooks(before) + rewrites
  }

  /** The last event is the hook that let these arguments through, after at most one rewrite. */
  predicate LetBy(log: seq<Event>, before: seq<Event>, args: string) {
    && NoLaunch(log, before) && |log| > |before| && log[|log| - 1].Hooked? && Lets(log[|log| - 1].out)
    && log[|log| - 1].args == args && RewritesOnly(log, |before|, |log| - 1) && Hooks(log) - Hooks(before) <= 2
  }

  /** A pass of the loop and what it adds to the hooks so far. */
  method NextPass(a: Authorizer, tool: string, invocation: string, args: string, rewrites: nat, ghost before: seq<Event>) returns (r: Pass)
    requires RoundTrips(a.world) && rewrites < 2 && Rewriting(a.log, before, rewrites)
    modifies a
    ensures SpendsNothing(old(a.proofs), a.proofs) && a.held == old(a.held) && NoLaunch(a.log, before)
    ensures r.Rewritten? ==> Rewriting(a.log, before, rewrites + 1)
    ensures r.Passed? ==> LetBy(a.log, before, r.args) && Settled(a, |before|, tool, invocation, r.args, r.argsMap, r.proof)
    ensures r.Passed? && !r.approved ==> a.world.valid(tool, r.args)
    ensures PassesOn(a, tool, invocation, FromSettling(a.world, tool, invocation, old(a.now), args, 2 - rewrites), r, 1 - rewrites)
  {
    ghost var mid := a.log;
    r := OnePass(a, tool, invocation, args, 2 - rewrites);
    PassAdds(a.log, mid, before);
    if !r.Ended? {
      PassCounts(a.log, mid);
    }
    if r.Passed? {
      JustifiedEarlier(a.log, |before|, |mid|, r.proof, a.proofs[r.proof], r.args);
    }
  }

  /** The pre_tool_use loop: it passes with the last hook silent on exactly these
      arguments and at most one rewrite before it, exactly when the call's course does. */
  method PolicyLoop(a: Authorizer, tool: string, invocation: string, given: string) returns (r: Pass)
    requires RoundTrips(a.world)
    modifies a
    ensures !r.Rewritten? && SpendsNothing(old(a.proofs), a.proofs) && a.held == old(a.held) && NoLaunch(a.log, old(a.log))
    ensures r.Passed? ==> LetBy(a.log, old(a.log), r.args)
    ensures r.Passed? ==> Settled(a, |old(a.log)|, tool, invocation, r.args, r.argsMap, r.proof)
    ensures r.Passed? && !r.approved ==> a.world.valid(tool, r.args)
    ensures PassesOn(a, tool, invocation, FromSettling(a.world, tool, invocation, old(a.now), given, 2), r, 0)
  {
    var args, rewriteCount := given, 0;
    ghost var course := FromSettling(a.world, tool, invocation, a.now, given, 2);
    while true
      invariant 0 <= rewriteCount <= 2
      invariant SpendsNothing(old(a.proofs), a.proofs) && a.held == old(a.held)
      invariant Rewriting(a.log, old(a.log), rewriteCount)
      invariant course == FromSettling(a.world, tool, invocation, a.now, args, 2 - rewriteCount)
      decreases 2 - rewriteCount
    {
      if rewriteCount > 1 {
        return Ended(false);
      }
      r := NextPass(a, tool, invocation, args, rewriteCount, old(a.log));
      if !r.Rewritten? {
        return;
      }
      args := r.args;
      rewriteCount := rewriteCount + 1;
    }
  }

  // ----------------------------------------------------------------- one tool call

  datatype Outcome = NotStarted(fatal: bool) | Launched(args: string, argsMap: Args, proof: nat, approved: bool)

  /** Steering gates and the write gate before a launch. */
  method Gates(a: Authorizer) returns (stop: bool)
    modifies a`now
    ensures a.now == old(a.now) + 3
    ensures stop == (a.world.stopped(old(a.now)) || a.world.stopped(old(a.now) + 1) || a.world.stopped(old(a.now) + 2))
  {
    var first := a.Ask();
    var second := a.Ask();
    var third := a.Ask();
    stop := a.world.stopped(first) || a.world.stopped(second) || a.world.stopped(third);
  }

  predicate NoneStarted(log: seq<Event>, from: nat) {
    forall k :: from <= k < |log| ==> !log[k].Started?
  }

  lemma StillNoneStarted(before: seq<Event>, mid: seq<Event>, log: seq<Event>)
    requires NoLaunch(mid, before) && NothingRun(log, mid)
    ensures before <= log && NoneStarted(log, |before|)
  {
  }

  lemma SpendsTwice(before: seq<Authorization>, mid: seq<Authorization>, after: seq<Authorization>)
    requires SpendsNothing(before, mid) && SpendsNothing(mid, after)
    ensures SpendsNothing(before, after)
  {
  }

  lemma CarriesOver(log: seq<Event>, after: seq<Event>, from: nat, p: nat, auth: Authorization, q: nat, used: Authorization, args: string)
    requires from <= |log| && log <= after && Justified(log, from, p, auth, args)
    requires if q == p then used.call == auth.call && used.approvedBy == auth.approvedBy else AllowedSince(after, |log|, q, used.call)
    ensures Justified(after, from, q, used, args)
  {
    if q == p {
      StillJustified(log, after[|log|..], from, p, auth, args);
      assert log + after[|log|..] == after;
      var i :| from <= i < |after| && Grants(after, from, i, p, auth, args);
      assert Grants(after, from, i, p, used, args);
    } else {
      var i :| |log| <= i < |after| && IsAllow(after[i], q, used.call);
      AllowJustifies(after, from, q, used, args, i);
    }
  }

  lemma HooksAfter(log: seq<Event>, after: seq<Event>, from: nat, args: string)
    requires from < |log| && log <= after && forall k :: |log| <= k < |after| ==> !after[k].Hooked?
    requires log[|log| - 1].Hooked? && Lets(log[|log| - 1].out) && log[|log| - 1].args == args && RewritesOnly(log, from, |log| - 1)
    ensures Hooks(after) == Hooks(log) && exists h :: from <= h < |after| && LetThrough(after, from, h, args)
  {
    HooksQuiet(after, log);
    assert LetThrough(after, from, |log| - 1, args);
  }

  /** The admission an ordinary tool takes and gives back before its handler runs.
      Its commit cannot fail: the proof was unspent under the lease. */
  method AdmitAndCommit(a: Authorizer, invocation: string, tool: string, args: string, m: Args, p: nat, ghost from: nat)
    returns (q: Option<nat>)
    requires !IsShell(tool) && !a.held
    requires p < |a.proofs| && !a.proofs[p].consumed && a.proofs[p].call == PlainCall(invocation, tool, m)
    requires from <= |a.log| && Justified(a.log, from, p, a.proofs[p], args)
    modifies a
    ensures !a.held && NothingRun(a.log, old(a.log))
    ensures q.None? ==> SpendsNothing(old(a.proofs), a.proofs)
    ensures q.Some? ==> q.value < |a.proofs| && Spent(a, invocation, tool, m, q.value) && Justified(a.log, from, q.value, a.proofs[q.value], args)
    ensures q.Some? ==> SpendsNothing(old(a.proofs), a.proofs[q.value := a.proofs[q.value].(consumed := false)])
    ensures Leased(a.world, old(a.now), old(a.proofs)[p], MAX_STALE_RETRIES) == if q.Some? then Some(a.proofs[q.value].(consumed := false)) else None
  {
    ghost var before, auth := a.log, a.proofs[p];
    ghost var tried;
    var r, used;
    r, used, tried := AdmitOrdinaryTool(a, invocation, tool, m, p);
    if !r.Admitted? {
      return None;
    }
    ghost var at := a.log[|a.log| - 1].at;
    var ok := a.Commit(used);
    assert ok;
    a.Release();
    assert Admissible(a.world, at, a.proofs[used]);
    CarriesOver(before, a.log, from, p, auth, used, a.proofs[used], args);
    q := Some(used);
  }

  /** Proof p was admitted live, at a moment the rules entitled exactly this call and
      the authority still was the one it was evaluated under, and is used up. */
  ghost predicate Spent(a: Authorizer, invocation: string, tool: string, m: Args, p: nat)
    reads a
    requires p < |a.proofs|
  {
    && a.proofs[p].consumed && a.proofs[p].call == PlainCall(invocation, tool, m)
    && exists at: nat :: Admissible(a.world, at, a.proofs[p])
  }

  /** From a settled pass to the handler. */
  method Launch(a: Authorizer, tool: string, invocation: string, args: string, m: Args, p: nat, ghost approved: bool, ghost from: nat)
    returns (q: Option<nat>)
    requires !a.held && from <= |a.log| && Settled(a, from, tool, invocation, args, m, p)
    modifies a
    ensures !a.held && old(a.log) <= a.log && forall k :: |old(a.log)| <= k < |a.log| ==> !a.log[k].Hooked?
    ensures q.None? ==> SpendsNothing(old(a.proofs), a.proofs) && NothingRun(a.log, old(a.log))
    ensures q.Some? ==> |a.log| > |old(a.log)| && a.log[|a.log| - 1] == Started(args, m, q.value) && q.value < |a.proofs|
    ensures q.Some? ==> Describes(a.proofs[q.value].call, invocation, tool, m) && Justified(a.log, from, q.value, a.proofs[q.value], args)
    ensures q.Some? ==> if IsShell(tool) then !a.proofs[q.value].consumed else Spent(a, invocation, tool, m, q.value)
    ensures q.Some? ==> SpendsNothing(old(a.proofs), a.proofs[q.value := a.proofs[q.value].(consumed := false)])
    ensures FromPassing(a.world, tool, Cleared(old(a.now), args, m, old(a.proofs)[p], approved))
         == if q.Some? then Cleared(old(a.now), args, m, a.proofs[q.value].(consumed := false), approved) else Barred(false)
  {
    q := None;
    var stop := Gates(a);
    if stop {
      return;
    }
    q := Some(p);
    if !IsShell(tool) {
      q := AdmitAndCommit(a, invocation, tool, args, m, p, from);
      if q.None? {
        return;
      }
    }
    StillJustified(a.log, [Started(args, m, q.value)], from, q.value, a.proofs[q.value], args);
    a.Start(args, m, q.value);
  }

  /** A handler was started as it may be: with arguments whose parse is the map the policy
      saw, under a proof for exactly those facts that the rules allowed or the user
      consented to in this call; the last hook let exactly these arguments through after
      at most one rewrite; and an ordinary tool's proof was admitted live and spent. */
  ghost predicate Rightful(a: Authorizer, before: seq<Event>, tool: string, invocation: string, r: Outcome)
    reads a
    requires r.Launched?
  {
    && |a.log| > |before| && a.log[|a.log| - 1] == Started(r.args, r.argsMap, r.proof)
    && ParseArgs(a.world, r.args) == Some(r.argsMap)
    && r.proof < |a.proofs| && Describes(a.proofs[r.proof].call, invocation, tool, r.argsMap)
    && Justified(a.log, |before|, r.proof, a.proofs[r.proof], r.args)
    && (exists h :: |before| <= h < |a.log| && LetThrough(a.log, |before|, h, r.args))
    && Hooks(a.log) - Hooks(before) <= 2
    && (if IsShell(tool) then !a.proofs[r.proof].consumed else Spent(a, invocation, tool, r.argsMap, r.proof))
  }

  /** The launch of what the loop passed. */
  method LaunchPassed(a: Authorizer, tool: string, invocation: string, pass: Pass, ghost before: seq<Event>) returns (r: Outcome)
    requires pass.Passed? && !a.held && LetBy(a.log, before, pass.args)
    requires Settled(a, |before|, tool, invocation, pass.args, pass.argsMap, pass.proof)
    modifies a
    ensures !a.held && before <= a.log
    ensures r.NotStarted? ==> SpendsNothing(old(a.proofs), a.proofs) && NoneStarted(a.log, |before|)
    ensures r.Launched? ==> Rightful(a, before, tool, invocation, r) && r.args == pass.args && r.argsMap == pass.argsMap && r.approved == pass.approved
    ensures r.Launched? ==> SpendsNothing(old(a.proofs), a.proofs[r.proof := a.proofs[r.proof].(consumed := false)])
    ensures FromPassing(a.world, tool, Cleared(old(a.now), pass.args, pass.argsMap, old(a.proofs)[pass.proof], pass.approved))
         == if r.NotStarted? then Barred(r.fatal)
            else Cleared(old(a.now), r.args, r.argsMap, a.proofs[r.proof].(consumed := false), r.approved)
  {
    ghost var hooked := a.log;
    var q := Launch(a, tool, invocation, pass.args, pass.argsMap, pass.proof, pass.approved, |before|);
    if q.None? {
      StillNoneStarted(before, hooked, a.log);
      return NotStarted(false);
    }
    HooksAfter(hooked, a.log, |before|, pass.args);
    r := Launched(pass.args, pass.argsMap, q.value, pass.approved);
  }

  /** executeToolCall, from its arguments to the handler.  Whatever mix of refusals,
      edits, Auto flips, rewrites and stale retries led there, a handler is started only
      rightfully, and exactly when the call's course in its world gets that far, with the
      arguments and the proof of that course.  Otherwise nothing started, no lease is
      held and no proof was spent. */
  method ExecuteToolCall(a: Authorizer, tool: string, invocation: string, given: string) returns (r: Outcome)
    requires RoundTrips(a.world) && !a.held
    modifies a
    ensures !a.held && old(a.log) <= a.log
    ensures r.NotStarted? ==> SpendsNothing(old(a.proofs), a.proofs) && NoneStarted(a.log, |old(a.log)|)
    ensures r.Launched? ==> Rightful(a, old(a.log), tool, invocation, r)
    ensures r.Launched? ==> SpendsNothing(old(a.proofs), a.proofs[r.proof := a.proofs[r.proof].(consumed := false)])
    ensures r.Launched? && !r.approved ==> a.world.valid(tool, r.args)
    ensures var c := CallCourse(a.world, old(a.now), tool, invocation, given);
      if r.NotStarted? then c == Barred(r.fatal)
      else c.Cleared? && r.args == c.args && r.argsMap == c.argsMap && r.approved == c.approved && a.proofs[r.proof].(consumed := false) == c.auth
  {
    var pass := PolicyLoop(a, tool, invocation, given);
    if pass.Ended? {
      return NotStarted(pass.fatal);
    }
    ghost var settled := a.proofs;
    r := LaunchPassed(a, tool, invocation, pass, old(a.log));
    SpendsTwice(old(a.proofs), settled, if r.NotStarted? then a.proofs else a.proofs[r.proof := a.proofs[r.proof].(consumed := false)]);
  }

  // ------------------------------------------------------------- the course itself

  /** What each judgement and each answer of the user leads to: an approved prompt
      without an edit goes on with the arguments shown, under the judged proof approved
      by the prompt's key, or with Auto on under a fresh proof if the rules allow it
      now; an edit is applied; everything else ends the call. */
  lemma AnswersLead(w: World, tool: string, invocation: string, t: nat, args: string, m: Args, auth: Authorization, ev: Evaluation, left: nat)
    ensures var c := FromJudged(w, tool, invocation, t, args, m, auth, ev, left);
      var call := PolicyCall(w.shell(t + 1), invocation, tool, m);
      var live := w.rules(t + 2, w.snapshot(t + 2), call);
      && (ev.decision.Deny? || (ev.decision.Confirm? && ev.system) ==> c == Barred(false))
      && (ev.decision.Allow? ==> c == FromHooking(w, tool, invocation, t, args, m, auth, false, left))
      && (ev.decision.Confirm? && !ev.system ==>
          match w.consent(t)
          case WaitError => c == Barred(true)
          case Reply(approved, edited, key) =>
            && (!approved ==> c == Barred(false))
            && (approved && w.auto(t + 1) && live.None? ==> c == Barred(true))
            && (approved && w.auto(t + 1) && live.Some? && !live.value.decision.Allow? ==> c == Barred(false))
            && (approved && edited == "" && !w.auto(t + 1)
                ==> c == FromHooking(w, tool, invocation, t + 2, args, m, Authorization(auth.snapshot, auth.call, key, auth.consumed), true, left))
            && (approved && edited == "" && w.auto(t + 1) && live.Some? && live.value.decision.Allow?
                ==> c == FromHooking(w, tool, invocation, t + 3, args, m, Authorization(w.snapshot(t + 2), call, "", false), true, left))
            && (approved && edited != "" && !w.auto(t + 1) ==> c == FromEdited(w, tool, invocation, t + 2, m, edited, key, left))
            && (approved && edited != "" && w.auto(t + 1) && live.Some? && live.value.decision.Allow?
                ==> c == FromEdited(w, tool, invocation, t + 3, m, edited, key, left)))
  {
  }

  /** What an edit leads to.  A new command replaces the command and nothing else; other
      arguments replace all.  They are judged anew: allowed ones go on, an edited command
      that needs consent gets a prompt of its own, and other arguments have it already. */
  lemma EditsLead(w: World, tool: string, invocation: string, t: nat, m: Args, edited: string, key: string, left: nat)
    requires RoundTrips(w) && edited != ""
    ensures var c := FromEdited(w, tool, invocation, t, m, edited, key, left);
      var args, after := (if IsShell(tool) then w.marshal(m["command" := Text(edited)]) else edited),
                         (if IsShell(tool) then Some(m["command" := Text(edited)]) else w.parse(edited));
      && (after.Some? ==> ParseArgs(w, args) == after)
      && (after.None? ==> c == Barred(true))
      && (after.Some? ==>
          var call := PolicyCall(w.shell(t), invocation, tool, after.value);
          var ev := w.rules(t + 1, w.snapshot(t + 1), call);
          && (ev.None? ==> c == Barred(true))
          && (ev.Some? && ev.value.decision.Deny? ==> c == Barred(false))
          && (ev.Some? && ev.value.decision.Allow?
              ==> c == FromHooking(w, tool, invocation, t + 2, args, after.value, Authorization(w.snapshot(t + 1), call, "", false), true, left))
          && (ev.Some? && ev.value.decision.Confirm? && !IsShell(tool)
              ==> c == FromHooking(w, tool, invocation, t + 2, args, after.value, Authorization(w.snapshot(t + 1), call, key, false), true, left))
          && (ev.Some? && ev.value.decision.Confirm? && IsShell(tool) ==>
              match w.consent(t + 2)
              case WaitError => c == Barred(true)
              case Reply(approved, _, again) =>
                c == if approved then FromHooking(w, tool, invocation, t + 3, args, after.value, Authorization(w.snapshot(t + 1), call, again, false), true, left)
                     else Barred(false)))
  {
  }

  /** The rules judge these arguments so when the call of moment t is settled. */
  predicate JudgedAs(w: World, t: nat, tool: string, invocation: string, args: string, m: Args, ev: Evaluation) {
    && ParseArgs(w, args) == Some(m) && w.valid(tool, args)
    && w.rules(t + 1, w.snapshot(t + 1), PolicyCall(w.shell(t), invocation, tool, m)) == Some(ev)
  }

  /** The proof such a judgement leaves. */
  function ProofOf(w: World, t: nat, tool: string, invocation: string, m: Args, key: string): Authorization {
    Authorization(w.snapshot(t + 1), PolicyCall(w.shell(t), invocation, tool, m), key, false)
  }

  const SILENT := HookOut(false, Silent, "")

  /** No gate stands in the way from moment t, and an ordinary tool's lease is there. */
  ghost predicate GoAhead(w: World, t: nat, tool: string, auth: Authorization) {
    && !w.stopped(t) && !w.stopped(t + 1) && !w.stopped(t + 2) && (IsShell(tool) || LeaseIsThere(w, t + 3, auth))
  }

  /** The live rules still let the call through: they allow it, or ask for a consent it
      has, and ask for no system access the session lacks; under the gate nothing refuses
      or ends; and the authority has not moved. */
  ghost predicate LeaseIsThere(w: World, t: nat, auth: Authorization) {
    var ev := w.rules(t, w.snapshot(t), auth.call);
    && (ev == Some(Evaluation(Allow, false)) || (ev == Some(Evaluation(Allow, true)) && w.system(w.snapshot(t)))
        || (auth.approvedBy != "" && (ev == Some(Evaluation(Confirm, false)) || (ev == Some(Evaluation(Confirm, true)) && w.system(w.snapshot(t))))))
    && !w.refusing(t + 1) && !w.ending(t + 1) && w.snapshot(t + 1) == auth.snapshot
  }

  /** A lease is taken at the first try exactly when it is there. */
  lemma LeasedExactly(w: World, t: nat, auth: Authorization)
    ensures Leased(w, t, auth, 0) == if LeaseIsThere(w, t, auth) then Some(auth) else None
    ensures LeaseIsThere(w, t, auth) ==> Leased(w, t, auth, MAX_STALE_RETRIES) == Some(auth)
  {
  }

  lemma ShellTools(tool: string)
    ensures IsShell(tool) <==> tool == "shell.run" || tool == "test.run" || tool == "shell.sudo"
  {
  }

  /** How a call is described to the rules: a shell tool by the command that will run, its
      own or for a bare test run the configured one, and anything else by its arguments. */
  lemma CallsDescribed(c: ShellContext, invocation: string, tool: string, m: Args, command: string)
    ensures tool in {"shell.run", "test.run", "shell.sudo"} && "command" in m && m["command"] == Text(command) && command != ""
      ==> PolicyCall(c, invocation, tool, m) == ShellCall(invocation, tool, command, c.place)
    ensures tool == "test.run" && ("command" in m ==> m["command"] == Text("") || m["command"].Other?)
      ==> PolicyCall(c, invocation, tool, m) == if c.testCommand != "" then ShellCall(invocation, tool, c.testCommand, c.place) else PlainCall(invocation, tool, m)
    ensures tool !in {"shell.run", "test.run", "shell.sudo"} || (tool != "test.run" && "command" !in m) ==> PolicyCall(c, invocation, tool, m) == PlainCall(invocation, tool, m)
  {
  }

  /** No arguments are an empty object; any others are what they parse to. */
  lemma ArgsParsed(w: World, args: string)
    ensures ParseArgs(w, args) == if args == "" then Some(map[]) else w.parse(args)
  {
  }

  /** What settled arguments lead to: arguments that do not parse, are not valid or cannot be
      evaluated are refused; and what the hook's answer leads to. */
  lemma HooksLead(w: World, tool: string, invocation: string, t: nat, args: string, m: Args, auth: Authorization, approved: bool, left: nat)
    ensures ParseArgs(w, args).None? || !w.valid(tool, args) ==> FromSettling(w, tool, invocation, t, args, left) == Barred(false)
    ensures var c, out := FromHooking(w, tool, invocation, t, args, m, auth, approved, left), w.hook(t, args);
      && (out.failed || out.decision.Block? ==> c == Barred(false))
      && (!out.failed && out.decision.Halt? ==> c == Barred(true))
      && (out == SILENT ==> c == Cleared(t + 1, args, m, auth, approved))
      && (!out.failed && out.decision.Silent? && out.rewrite != "" ==> c == FromSettling(w, tool, invocation, t + 1, out.rewrite, left))
  {
  }

  lemma AllowedHooks(w: World, t: nat, tool: string, invocation: string, args: string, m: Args, passes: nat)
    requires passes > 0 && JudgedAs(w, t, tool, invocation, args, m, Evaluation(Allow, false))
    ensures FromSettling(w, tool, invocation, t, args, passes)
         == FromHooking(w, tool, invocation, t + 2, args, m, ProofOf(w, t, tool, invocation, m, ""), false, passes - 1)
  {
    AnswersLead(w, tool, invocation, t + 2, args, m, ProofOf(w, t, tool, invocation, m, ""), Evaluation(Allow, false), passes - 1);
  }

  /** A call the rules allow, with a silent hook and nothing in its way, starts its
      handler with its own arguments. */
  lemma AllowedStarts(w: World, t: nat, tool: string, invocation: string, args: string, m: Args)
    requires JudgedAs(w, t, tool, invocation, args, m, Evaluation(Allow, false)) && w.hook(t + 2, args) == SILENT
    requires GoAhead(w, t + 3, tool, ProofOf(w, t, tool, invocation, m, ""))
    ensures CallCourse(w, t, tool, invocation, args) == Cleared(t + 3, args, m, ProofOf(w, t, tool, invocation, m, ""), false)
  {
    AllowedHooks(w, t, tool, invocation, args, m, 2);
  }

  /** A call the user approves unedited, Auto off, starts with the arguments shown, under
      the proof approved by the prompt's key. */
  lemma ApprovedStarts(w: World, t: nat, tool: string, invocation: string, args: string, m: Args, key: string)
    requires JudgedAs(w, t, tool, invocation, args, m, Evaluation(Confirm, false))
    requires w.consent(t + 2) == Reply(true, "", key) && !w.auto(t + 3) && w.hook(t + 4, args) == SILENT
    requires GoAhead(w, t + 5, tool, ProofOf(w, t, tool, invocation, m, key))
    ensures CallCourse(w, t, tool, invocation, args) == Cleared(t + 5, args, m, ProofOf(w, t, tool, invocation, m, key), true)
  {
    AnswersLead(w, tool, invocation, t + 2, args, m, ProofOf(w, t, tool, invocation, m, ""), Evaluation(Confirm, false), 1);
  }

  /** One approved while Auto was turned on starts exactly when the rules allow it now. */
  lemma AutoStartsExactly(w: World, t: nat, tool: string, invocation: string, args: string, m: Args, key: string)
    requires JudgedAs(w, t, tool, invocation, args, m, Evaluation(Confirm, false))
    requires w.consent(t + 2) == Reply(true, "", key) && w.auto(t + 3) && w.hook(t + 5, args) == SILENT
    requires GoAhead(w, t + 6, tool, ProofOf(w, t + 3, tool, invocation, m, ""))
    ensures var live := w.rules(t + 4, w.snapshot(t + 4), PolicyCall(w.shell(t + 3), invocation, tool, m));
      CallCourse(w, t, tool, invocation, args)
      == if live.Some? && live.value.decision.Allow? then Cleared(t + 6, args, m, ProofOf(w, t + 3, tool, invocation, m, ""), true) else Barred(live.None?)
  {
    AnswersLead(w, tool, invocation, t + 2, args, m, ProofOf(w, t, tool, invocation, m, ""), Evaluation(Confirm, false), 1);
  }

  /** Edited arguments of an ordinary tool start with the prompt they were typed in as
      their consent, unless the rules deny them. */
  lemma EditedStarts(w: World, t: nat, tool: string, invocation: string, args: string, m: Args, edited: string, key: string, after: Args, ev: Evaluation)
    requires RoundTrips(w) && !IsShell(tool) && edited != "" && !ev.decision.Deny?
    requires JudgedAs(w, t, tool, invocation, args, m, Evaluation(Confirm, false))
    requires w.consent(t + 2) == Reply(true, edited, key) && !w.auto(t + 3) && w.parse(edited) == Some(after)
    requires w.rules(t + 5, w.snapshot(t + 5), PolicyCall(w.shell(t + 4), invocation, tool, after)) == Some(ev) && w.hook(t + 6, edited) == SILENT
    requires GoAhead(w, t + 7, tool, ProofOf(w, t + 4, tool, invocation, after, if ev.decision.Confirm? then key else ""))
    ensures CallCourse(w, t, tool, invocation, args)
         == Cleared(t + 7, edited, after, ProofOf(w, t + 4, tool, invocation, after, if ev.decision.Confirm? then key else ""), true)
  {
    AnswersLead(w, tool, invocation, t + 2, args, m, ProofOf(w, t, tool, invocation, m, ""), Evaluation(Confirm, false), 1);
    EditsLead(w, tool, invocation, t + 4, m, edited, key, 1);
  }

  /** One rewrite is settled like new arguments and starts with them; a second ends the call. */
  lemma RewrittenStartsOnce(w: World, t: nat, tool: string, invocation: string, args: string, m: Args, rewrite: string, after: Args)
    requires JudgedAs(w, t, tool, invocation, args, m, Evaluation(Allow, false))
    requires rewrite != "" && w.hook(t + 2, args) == HookOut(false, Silent, rewrite)
    requires JudgedAs(w, t + 3, tool, invocation, rewrite, after, Evaluation(Allow, false))
    requires GoAhead(w, t + 6, tool, ProofOf(w, t + 3, tool, invocation, after, ""))
    ensures w.hook(t + 5, rewrite) == SILENT
      ==> CallCourse(w, t, tool, invocation, args) == Cleared(t + 6, rewrite, after, ProofOf(w, t + 3, tool, invocation, after, ""), false)
    ensures !w.hook(t + 5, rewrite).failed && w.hook(t + 5, rewrite).decision.Silent? && w.hook(t + 5, rewrite).rewrite != ""
      ==> CallCourse(w, t, tool, invocation, args) == Barred(false)
  {
    AllowedHooks(w, t, tool, invocation, args, m, 2);
    AllowedHooks(w, t + 3, tool, invocation, rewrite, after, 1);
  }

  /** A lease refused because the authority moved is taken under a fresh proof if the rules
      allow the call now, while a retry is left; and only then. */
  lemma RenewedIsLeased(w: World, t: nat, auth: Authorization, retries: nat)
    requires Outdated(w, t, auth) && w.snapshot(t + 1) != auth.snapshot
    ensures var renewed := Authorization(w.snapshot(t + 2), auth.call, "", false);
      var live := w.rules(t + 2, w.snapshot(t + 2), auth.call);
      if retries > 0 && live.Some? && live.value.decision.Allow? then Admissible(w, t + 3, renewed) ==> Leased(w, t, auth, retries) == Some(renewed)
      else Leased(w, t, auth, retries) == None
  {
  }

  /** A refusal for any other reason is never retried. */
  lemma OtherRefusalsStand(w: World, t: nat, auth: Authorization, retries: nat)
    requires !Admissible(w, t, auth) && (w.snapshot(t + 1) == auth.snapshot || w.refusing(t + 1) || !Entitled(w, t, auth))
    ensures Leased(w, t, auth, retries) == None
  {
  }

  /** So in a world where nothing stands in the way of any call with these facts, the
      handler starts. */
  lemma CalmStarts(w: World, t: nat, tool: string, invocation: string, given: string)
    requires Calm(w, tool, invocation, given)
    ensures var m := ParseArgs(w, given).value;
      CallCourse(w, t, tool, invocation, given) == Cleared(t + 3, given, m, ProofOf(w, t, tool, invocation, m, ""), false)
  {
    var m := ParseArgs(w, given).value;
    assert w.snapshot(t + 1) == w.snapshot(0) == w.snapshot(t + 6) == w.snapshot(t + 7);
    AllowedStarts(w, t, tool, invocation, given, m);
  }

  /** The last hook of the call, at h, was silent on these arguments. */
  predicate LetThrough(log: seq<Event>, from: nat, h: nat, args: string)
    requires h < |log|
  {
    && log[h].Hooked? && log[h].args == args && Lets(log[h].out) && RewritesOnly(log, from, h)
    && forall k :: h < k < |log| ==> !log[k].Hooked?
  }
}
