/** Inbound frames (internal/acp/server.go, handleFrame, dispatchRequest and the
    in-flight registry).

    The read loop classifies each frame in arrival order and starts a goroutine
    for a request; the goroutine leaves the registry, then writes the response.
    A run interleaves arrivals with the two later steps of every request. */
module Frames {
  import opened Common

  type Key = string

  const PARSE_ERROR := -32700
  const INVALID_REQUEST := -32600
  const METHOD_NOT_FOUND := -32601
  const INTERNAL_ERROR := -32603

  const CANCEL_METHOD := "$/cancel_request"

  /** A decoded frame: its id, its method key when it has one, and the id its
      params name for a cancel.  A null id decodes to no id. */
  datatype Frame = Malformed | Decoded(id: Option<Key>, verb: Option<string>, names: Option<Key>)

  /** How a handler ends. */
  datatype Ending = Succeeded | Failed(code: int) | Panicked

  /** The methods with a handler and, among them, the notification-only ones. */
  datatype Config = Config(handled: set<string>, notifications: set<string>)

  /** One response on the wire: the frame it answers, the id written (none is the
      null id), and the error code when it is an error. */
  datatype Response = Response(frame: nat, id: Option<Key>, error: Option<int>)

  datatype Task = Running | Answering(error: Option<int>) | Answered

  datatype State = State(frames: seq<Frame>, log: seq<Response>, tasks: map<nat, Task>,
                         inFlight: map<Key, nat>, cancelled: set<nat>)

  const Start := State([], [], map[], map[], {})

  predicate IsRequest(c: Config, f: Frame) {
    && f.Decoded? && f.id.Some? && f.verb.Some?
    && f.verb.value != "" && f.verb.value != CANCEL_METHOD && f.verb.value !in c.notifications
  }

  /** A frame the read loop answers itself, with the error it writes. */
  function Refusal(c: Config, f: Frame): Option<int> {
    if f.Malformed? then Some(PARSE_ERROR)
    else if f.id.Some? && f.verb.Some? && !IsRequest(c, f) then Some(INVALID_REQUEST)
    else None
  }

  predicate IsCancel(f: Frame) {
    f.Decoded? && f.id.None? && f.verb == Some(CANCEL_METHOD)
  }

  /** handleFrame: refuse, cancel, register a request, or ignore. */
  function Arrived(c: Config, s: State, f: Frame): State {
    var i := |s.frames|;
    var s' := s.(frames := s.frames + [f]);
    if Refusal(c, f).Some? then s'.(log := s.log + [Response(i, if f.Malformed? then None else f.id, Refusal(c, f))])
    else if IsCancel(f) then
      if f.names.Some? && f.names.value in s.inFlight then s'.(cancelled := s.cancelled + {s.inFlight[f.names.value]}) else s'
    else if IsRequest(c, f) then s'.(inFlight := s.inFlight[f.id.value := i], tasks := s.tasks[i := Running])
    else s'
  }

  /** dispatch: an unknown method and a panic are answered as errors. */
  function Outcome(c: Config, f: Frame, e: Ending): Option<int>
    requires IsRequest(c, f)
  {
    if f.verb.value !in c.handled then Some(METHOD_NOT_FOUND)
    else match e
      case Succeeded => None
      case Failed(code) => Some(code)
      case Panicked => Some(INTERNAL_ERROR)
  }

  datatype Label = Arrive(f: Frame) | HandlerEnds(i: nat, e: Ending) | Respond(i: nat)

  predicate Enabled(c: Config, s: State, l: Label) {
    match l
    case Arrive(_) => true
    case HandlerEnds(i, _) => i in s.tasks && s.tasks[i].Running? && i < |s.frames| && IsRequest(c, s.frames[i])
    case Respond(i) => i in s.tasks && s.tasks[i].Answering? && i < |s.frames| && IsRequest(c, s.frames[i])
  }

  function Do(c: Config, s: State, l: Label): State
    requires Enabled(c, s, l)
  {
    match l
    case Arrive(f) => Arrived(c, s, f)
    case HandlerEnds(i, e) =>
      s.(inFlight := s.inFlight - {s.frames[i].id.value}, tasks := s.tasks[i := Answering(Outcome(c, s.frames[i], e))])
    case Respond(i) =>
      s.(log := s.log + [Response(i, s.frames[i].id, s.tasks[i].error)], tasks := s.tasks[i := Answered])
  }

  ghost predicate Reaches(c: Config, s: State, ls: seq<Label>, t: State)
    decreases |ls|
  {
    if ls == [] then s == t else Enabled(c, s, ls[0]) && Reaches(c, Do(c, s, ls[0]), ls[1..], t)
  }

  // -------------------------------------------------------- exactly one answer

  function Count(log: seq<Response>, i: nat): nat {
    if log == [] then 0
    else Count(log[..|log| - 1], i) + (if log[|log| - 1].frame == i then 1 else 0)
  }

  lemma CountMore(log: seq<Response>, r: Response, i: nat)
    ensures Count(log + [r], i) == Count(log, i) + (if r.frame == i then 1 else 0)
  {
    assert (log + [r])[..|log|] == log;
  }

  /** How many responses frame i must have had by now. */
  function Owed(c: Config, s: State, i: nat): nat
    requires i < |s.frames|
  {
    if Refusal(c, s.frames[i]).Some? || (i in s.tasks && s.tasks[i].Answered?) then 1 else 0
  }

  ghost predicate TasksGood(c: Config, s: State) {
    forall i :: i in s.tasks <==> 0 <= i < |s.frames| && IsRequest(c, s.frames[i])
  }

  ghost predicate CountsGood(c: Config, s: State) {
    && (forall i: nat :: i < |s.frames| ==> Count(s.log, i) == Owed(c, s, i))
    && (forall i: nat :: i >= |s.frames| ==> Count(s.log, i) == 0)
  }

  /** A response is written with the id of the frame it answers. */
  ghost predicate Addressed(s: State, r: Response) {
    r.frame < |s.frames| && (s.frames[r.frame].Malformed? ==> r.id.None?)
    && (s.frames[r.frame].Decoded? ==> r.id == s.frames[r.frame].id)
  }

  ghost predicate Good(c: Config, s: State) {
    && TasksGood(c, s) && CountsGood(c, s)
    && (forall r :: r in s.log ==> Addressed(s, r))
    && (forall k :: k in s.inFlight ==> Runs(s, s.inFlight[k], k))
  }

  ghost predicate Runs(s: State, i: nat, k: Key) {
    i in s.tasks && s.tasks[i].Running? && i < |s.frames| && s.frames[i].Decoded? && s.frames[i].id == Some(k)
  }

  /** The frame a step answers, if it answers one. */
  function Wrote(c: Config, s: State, l: Label): Option<nat> {
    match l
    case Arrive(f) => if Refusal(c, f).Some? then Some(|s.frames|) else None
    case HandlerEnds(_, _) => None
    case Respond(i) => Some(i)
  }

  lemma CountStep(c: Config, s: State, l: Label, i: nat)
    requires Enabled(c, s, l)
    ensures Count(Do(c, s, l).log, i) == Count(s.log, i) + if Wrote(c, s, l) == Some(i) then 1 else 0
  {
    var t := Do(c, s, l);
    if Wrote(c, s, l).Some? {
      var r := t.log[|s.log|];
      assert t.log == s.log + [r] && r.frame == Wrote(c, s, l).value;
      CountMore(s.log, r, i);
    }
  }

  lemma OwedStep(c: Config, s: State, l: Label, i: nat)
    requires TasksGood(c, s) && Enabled(c, s, l) && i < |s.frames|
    ensures i < |Do(c, s, l).frames|
    ensures Owed(c, Do(c, s, l), i) == Owed(c, s, i) + if Wrote(c, s, l) == Some(i) then 1 else 0
  {
  }

  lemma CountKeeps(c: Config, s: State, l: Label, i: nat)
    requires TasksGood(c, s) && CountsGood(c, s) && Enabled(c, s, l)
    ensures var t := Do(c, s, l); Count(t.log, i) == if i < |t.frames| then Owed(c, t, i) else 0
  {
    CountStep(c, s, l, i);
    if i < |s.frames| { OwedStep(c, s, l, i); }
  }

  lemma TasksKeep(c: Config, s: State, l: Label)
    requires TasksGood(c, s) && Enabled(c, s, l)
    ensures TasksGood(c, Do(c, s, l))
  {
  }

  lemma AddressKeeps(c: Config, s: State, l: Label, r: Response)
    requires Good(c, s) && Enabled(c, s, l) && r in Do(c, s, l).log
    ensures Addressed(Do(c, s, l), r)
  {
    if r in s.log { assert Addressed(s, r); }
  }

  lemma RegistryKeeps(c: Config, s: State, l: Label, k: Key)
    requires Good(c, s) && Enabled(c, s, l) && k in Do(c, s, l).inFlight
    ensures Runs(Do(c, s, l), Do(c, s, l).inFlight[k], k)
  {
    var t := Do(c, s, l);
    if k in s.inFlight && t.inFlight[k] == s.inFlight[k] { assert Runs(s, s.inFlight[k], k); }
  }

  lemma StepKeeps(c: Config, s: State, l: Label)
    requires Good(c, s) && Enabled(c, s, l)
    ensures Good(c, Do(c, s, l))
  {
    var t := Do(c, s, l);
    TasksKeep(c, s, l);
    forall i: nat ensures Count(t.log, i) == if i < |t.frames| then Owed(c, t, i) else 0 { CountKeeps(c, s, l, i); }
    forall r | r in t.log ensures Addressed(t, r) { AddressKeeps(c, s, l, r); }
    forall k | k in t.inFlight ensures Runs(t, t.inFlight[k], k) { RegistryKeeps(c, s, l, k); }
  }

  lemma {:induction false} RunKeeps(c: Config, s: State, ls: seq<Label>, t: State)
    requires Good(c, s) && Reaches(c, s, ls, t)
    ensures Good(c, t)
    decreases |ls|
  {
    if ls != [] {
      StepKeeps(c, s, ls[0]);
      RunKeeps(c, Do(c, s, ls[0]), ls[1..], t);
    }
  }

  /** For every frame sequence and every interleaving: an id-bearing frame with a
      method has at most one response, and exactly one once no handler is still
      running; an id-less frame with a method never has any; each response
      carries the id of the frame it answers. */
  lemma OneResponseEach(c: Config, ls: seq<Label>, t: State, i: nat)
    requires Reaches(c, Start, ls, t) && i < |t.frames| && t.frames[i].Decoded? && t.frames[i].verb.Some?
    ensures Count(t.log, i) <= 1
    ensures t.frames[i].id.None? ==> Count(t.log, i) == 0
    ensures t.frames[i].id.Some? && (forall j :: j in t.tasks ==> t.tasks[j].Answered?) ==> Count(t.log, i) == 1
    ensures forall r :: r in t.log && r.frame == i ==> r.id == t.frames[i].id
  {
    RunKeeps(c, Start, ls, t);
  }

  /** What each arrival does: one refusal with its code, a cancel, or a registration. */
  lemma ArrivalsSay(c: Config, s: State, f: Frame)
    ensures var t, i := Arrived(c, s, f), |s.frames|;
      && t.frames == s.frames + [f]
      && (f.Malformed? ==> t == s.(frames := t.frames, log := s.log + [Response(i, None, Some(-32700))]))
      && (f.Decoded? && f.id.Some? && f.verb.Some? && (f.verb.value == "" || f.verb.value == CANCEL_METHOD || f.verb.value in c.notifications)
          ==> t == s.(frames := t.frames, log := s.log + [Response(i, f.id, Some(-32600))]))
      && (f.Decoded? && f.id.Some? && f.verb.Some? && f.verb.value != "" && f.verb.value != CANCEL_METHOD && f.verb.value !in c.notifications
          ==> t == s.(frames := t.frames, inFlight := s.inFlight[f.id.value := i], tasks := s.tasks[i := Running]))
      && (f.Decoded? && (f.id.None? || f.verb.None?) && !(f.id.None? && f.verb == Some(CANCEL_METHOD)) ==> t == s.(frames := t.frames))
  {
  }

  lemma {:induction false} NoneCounted(log: seq<Response>, i: nat)
    requires Count(log, i) == 0
    ensures forall r :: r in log ==> r.frame != i
  {
    if log != [] {
      NoneCounted(log[..|log| - 1], i);
      assert log == log[..|log| - 1] + [log[|log| - 1]];
    }
  }

  /** Frame i's handler ended with this error, and it is or will be answered so. */
  ghost predicate Settled(s: State, i: nat, error: Option<int>) {
    && i < |s.frames| && i in s.tasks && (s.tasks[i] == Answering(error) || s.tasks[i].Answered?)
    && forall r :: r in s.log && r.frame == i ==> r.error == error
  }

  lemma {:induction false} SettledStays(c: Config, s: State, ls: seq<Label>, t: State, i: nat, error: Option<int>)
    requires Settled(s, i, error) && Reaches(c, s, ls, t)
    ensures Settled(t, i, error)
    decreases |ls|
  {
    if ls != [] {
      SettledStays(c, Do(c, s, ls[0]), ls[1..], t, i, error);
    }
  }

  /** Over every run: the response to a request is a success exactly when its method has a
      handler and that succeeded; otherwise its code is the handler's own, or says that
      there was none, or that it panicked. */
  lemma AnswersSay(c: Config, before: seq<Label>, s: State, i: nat, e: Ending, after: seq<Label>, t: State, r: Response)
    requires Reaches(c, Start, before, s) && Enabled(c, s, HandlerEnds(i, e)) && Reaches(c, Do(c, s, HandlerEnds(i, e)), after, t)
    requires r in t.log && r.frame == i
    ensures r.error == if s.frames[i].verb.value !in c.handled then Some(-32601)
                       else if e.Succeeded? then None else if e.Panicked? then Some(-32603) else Some(e.code)
  {
    RunKeeps(c, Start, before, s);
    NoneCounted(s.log, i);
    var m := Do(c, s, HandlerEnds(i, e));
    SettledStays(c, m, after, t, i, Outcome(c, s.frames[i], e));
  }

  /** A request that arrives can be answered, whatever else is in flight: its handler ends
      and its one response is the last of the log. */
  lemma RequestIsAnswered(c: Config, before: seq<Label>, s: State, f: Frame, e: Ending)
    requires Reaches(c, Start, before, s) && IsRequest(c, f)
    ensures var i := |s.frames|;
      exists t :: Reaches(c, s, [Arrive(f), HandlerEnds(i, e), Respond(i)], t)
                  && t.log == s.log + [Response(i, f.id, Outcome(c, f, e))] && i in t.tasks && t.tasks[i].Answered?
  {
    var i := |s.frames|;
    var a := Do(c, s, Arrive(f));
    var b := Do(c, a, HandlerEnds(i, e));
    var t := Do(c, b, Respond(i));
    assert [Respond(i)][1..] == [] && Reaches(c, t, [], t) && Reaches(c, b, [Respond(i)], t);
    assert [HandlerEnds(i, e), Respond(i)][1..] == [Respond(i)] && Reaches(c, a, [HandlerEnds(i, e), Respond(i)], t);
    assert [Arrive(f), HandlerEnds(i, e), Respond(i)][1..] == [HandlerEnds(i, e), Respond(i)];
    assert Reaches(c, s, [Arrive(f), HandlerEnds(i, e), Respond(i)], t);
  }

  // ------------------------------------------------------------------ cancels

  /** A cancel ends nothing but a request that is still running under the id it
      names, whatever ids clients choose. */
  lemma CancelNeverStrays(c: Config, ls: seq<Label>, t: State, f: Frame, i: nat)
    requires Reaches(c, Start, ls, t) && IsCancel(f)
    requires i in Arrived(c, t, f).cancelled && i !in t.cancelled
    ensures f.names.Some? && Runs(t, i, f.names.value)
  {
    RunKeeps(c, Start, ls, t);
  }

  /** Ids are distinct in flight when no request arrives under a key another
      request is still running under. */
  ghost predicate DistinctInFlight(c: Config, s: State, ls: seq<Label>)
    decreases |ls|
  {
    ls == [] ||
    ((ls[0].Arrive? && IsRequest(c, ls[0].f) ==> forall i :: i in s.tasks ==> !Runs(s, i, ls[0].f.id.value))
     && (Enabled(c, s, ls[0]) ==> DistinctInFlight(c, Do(c, s, ls[0]), ls[1..])))
  }

  ghost predicate Registered(s: State) {
    forall i, k :: Runs(s, i, k) ==> k in s.inFlight && s.inFlight[k] == i
  }

  lemma {:induction false} DistinctStaysRegistered(c: Config, s: State, ls: seq<Label>, t: State)
    requires Good(c, s) && Registered(s) && DistinctInFlight(c, s, ls) && Reaches(c, s, ls, t)
    ensures Registered(t)
    decreases |ls|
  {
    if ls != [] {
      var l := ls[0];
      StepKeeps(c, s, l);
      var s' := Do(c, s, l);
      forall i, k | Runs(s', i, k) ensures k in s'.inFlight && s'.inFlight[k] == i {
        if !(l.Arrive? && i == |s.frames|) { assert Runs(s, i, k); }
        if l.HandlerEnds? { assert Runs(s, l.i, s.frames[l.i].id.value); }
      }
      DistinctStaysRegistered(c, s', ls[1..], t);
    }
  }

  /** With distinct in-flight ids, a cancel that arrives after its request and
      before its handler returns cancels exactly that request. */
  lemma CancelHits(c: Config, ls: seq<Label>, t: State, f: Frame, i: nat)
    requires Reaches(c, Start, ls, t) && DistinctInFlight(c, Start, ls)
    requires IsCancel(f) && f.names.Some? && Runs(t, i, f.names.value)
    ensures Arrived(c, t, f).cancelled == t.cancelled + {i}
  {
    DistinctStaysRegistered(c, Start, ls, t);
  }

  /** Steps that take the registry entry of request i, registered under k, from it: another
      request arrives under k, or another request of key k ends. */
  predicate Disturbs(c: Config, s: State, l: Label, i: nat, k: Key) {
    (l.Arrive? && IsRequest(c, l.f) && l.f.id == Some(k))
    || (l.HandlerEnds? && l.i != i && l.i < |s.frames| && s.frames[l.i].Decoded? && s.frames[l.i].id == Some(k))
  }

  ghost predicate Undisturbed(c: Config, s: State, ls: seq<Label>, i: nat, k: Key)
    decreases |ls|
  {
    ls == [] || (!Disturbs(c, s, ls[0], i, k) && (Enabled(c, s, ls[0]) ==> Undisturbed(c, Do(c, s, ls[0]), ls[1..], i, k)))
  }

  predicate Listed(s: State, i: nat, k: Key) { k in s.inFlight && s.inFlight[k] == i }

  lemma {:induction false} EndedStays(c: Config, s: State, ls: seq<Label>, t: State, i: nat)
    requires Reaches(c, s, ls, t) && i < |s.frames| && i in s.tasks && !s.tasks[i].Running?
    ensures i in t.tasks && !t.tasks[i].Running?
    decreases |ls|
  {
    if ls != [] {
      EndedStays(c, Do(c, s, ls[0]), ls[1..], t, i);
    }
  }

  lemma {:induction false} UnlistedStays(c: Config, s: State, ls: seq<Label>, t: State, i: nat, k: Key)
    requires Reaches(c, s, ls, t) && i < |s.frames| && !Listed(s, i, k)
    ensures !Listed(t, i, k)
    decreases |ls|
  {
    if ls != [] {
      UnlistedStays(c, Do(c, s, ls[0]), ls[1..], t, i, k);
    }
  }

  lemma {:induction false} ListedExactly(c: Config, s: State, ls: seq<Label>, t: State, i: nat, k: Key)
    requires Reaches(c, s, ls, t) && Runs(s, i, k) && Listed(s, i, k) && Runs(t, i, k)
    ensures Listed(t, i, k) <==> Undisturbed(c, s, ls, i, k)
    decreases |ls|
  {
    if ls != [] {
      var l := ls[0];
      var s' := Do(c, s, l);
      if Disturbs(c, s, l, i, k) {
        UnlistedStays(c, s', ls[1..], t, i, k);
      } else if l.HandlerEnds? && l.i == i {
        EndedStays(c, s', ls[1..], t, i);
      } else {
        ListedExactly(c, s', ls[1..], t, i, k);
      }
    }
  }

  /** Exactly when a cancel reaches its request, whatever ids clients choose: while request
      i of key k runs, a cancel of k cancels it if and only if no request arrived under k
      and no other request of key k ended since it arrived (or it is cancelled already). */
  lemma CancelHitsExactly(c: Config, before: seq<Label>, s: State, f: Frame, ls: seq<Label>, t: State, cancel: Frame)
    requires Reaches(c, Start, before, s) && IsRequest(c, f) && Reaches(c, Arrived(c, s, f), ls, t)
    requires Runs(t, |s.frames|, f.id.value) && IsCancel(cancel) && cancel.names == f.id
    ensures |s.frames| in Arrived(c, t, cancel).cancelled
       <==> |s.frames| in t.cancelled || Undisturbed(c, Arrived(c, s, f), ls, |s.frames|, f.id.value)
  {
    RunKeeps(c, Start, before, s);
    ListedExactly(c, Arrived(c, s, f), ls, t, |s.frames|, f.id.value);
  }

  /** With a repeated id the claim is false: the first request to end drops the
      registry entry of the second, so a cancel of the running one is lost. */
  lemma RepeatedIdLosesCancel(c: Config, k: Key, m: string)
    requires m != "" && m != CANCEL_METHOD && m !in c.notifications
    ensures var req, cancel := Decoded(Some(k), Some(m), None), Decoded(None, Some(CANCEL_METHOD), Some(k));
      var ls := [Arrive(req), Arrive(req), HandlerEnds(0, Succeeded)];
      exists t :: Reaches(c, Start, ls, t) && Runs(t, 1, k) && Arrived(c, t, cancel).cancelled == {}
  {
    var req := Decoded(Some(k), Some(m), None);
    var s1 := Do(c, Start, Arrive(req));
    var s2 := Do(c, s1, Arrive(req));
    var l := HandlerEnds(0, Succeeded);
    var s3 := Do(c, s2, l);
    assert Reaches(c, s3, [], s3);
    assert [l][1..] == [] && Reaches(c, s2, [l], s3);
    var l2 := Arrive(req);
    assert [l2, l][1..] == [l] && Reaches(c, s1, [l2, l], s3);
    assert [l2, l2, l][1..] == [l2, l] && Reaches(c, Start, [l2, l2, l], s3);
  }

  // --------------------------------------------------------------- the object

  /** The router's mutable state; the read loop and each request's goroutine
      change it in the critical sections below. */
  class Router {
    const config: Config
    var frames: seq<Frame>
    var log: seq<Response>
    var tasks: map<nat, Task>
    var inFlight: map<Key, nat>
    var cancelled: set<nat>

    constructor (config: Config)
      ensures this.config == config && View() == Start
    {
      this.config := config;
      frames, log, tasks, inFlight, cancelled := [], [], map[], map[], {};
    }

    ghost function View(): State
      reads this
    {
      State(frames, log, tasks, inFlight, cancelled)
    }

    method WriteError(i: nat, id: Option<Key>, code: int)
      modifies this`log
      ensures log == old(log) + [Response(i, id, Some(code))]
    {
      log := log + [Response(i, id, Some(code))];
    }

    method HandleFrame(f: Frame)
      modifies this
      ensures View() == Arrived(config, old(View()), f)
    {
      var i := |frames|;
      frames := frames + [f];
      if f.Malformed? {
        WriteError(i, None, PARSE_ERROR);
        return;
      }
      if f.verb.None? {
        return;
      }
      var verb := f.verb.value;
      if verb == "" {
        if f.id.Some? { WriteError(i, f.id, INVALID_REQUEST); }
        return;
      }
      if verb == CANCEL_METHOD {
        if f.id.Some? {
          WriteError(i, f.id, INVALID_REQUEST);
          return;
        }
        HandleCancelRequest(f.names);
        return;
      }
      if verb in config.notifications {
        if f.id.Some? { WriteError(i, f.id, INVALID_REQUEST); }
        return;
      }
      if f.id.Some? {
        inFlight := inFlight[f.id.value := i];
        tasks := tasks[i := Running];
      }
    }

    method HandleCancelRequest(names: Option<Key>)
      modifies this`cancelled
      ensures cancelled == if names.Some? && names.value in inFlight then old(cancelled) + {inFlight[names.value]} else old(cancelled)
    {
      if names.Some? && names.value in inFlight {
        cancelled := cancelled + {inFlight[names.value]};
      }
    }

    /** dispatchRequest: the handler ended; leave the registry before answering. */
    method FinishHandler(i: nat, e: Ending)
      requires Enabled(config, View(), HandlerEnds(i, e))
      modifies this`inFlight, this`tasks
      ensures View() == Do(config, old(View()), HandlerEnds(i, e))
    {
      var error: Option<int> := None;
      if frames[i].verb.value !in config.handled {
        error := Some(METHOD_NOT_FOUND);
      } else if e.Panicked? {
        error := Some(INTERNAL_ERROR);
      } else if e.Failed? {
        error := Some(e.code);
      }
      inFlight := inFlight - {frames[i].id.value};
      tasks := tasks[i := Answering(error)];
    }

    /** dispatchRequest: write the one response. */
    method Answer(i: nat)
      requires Enabled(config, View(), Respond(i))
      modifies this`log, this`tasks
      ensures View() == Do(config, old(View()), Respond(i))
    {
      log := log + [Response(i, frames[i].id, tasks[i].error)];
      tasks := tasks[i := Answered];
    }
  }
}
