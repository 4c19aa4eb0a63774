/** Outbound JSON-RPC requests (internal/acp/server.go, Request, deliverOutbound
    and failOutbound).

    A caller registers a buffered channel under a fresh id and blocks on it; the
    read loop hands a response to it, the caller withdraws it, or shutdown fails
    it.  Each critical section is one atomic step; between two of them any other
    goroutine may run. */
module Outbound {
  import opened Common

  /** What a waiter channel carries: the reply to a key, or the closing error. */
  datatype Result = Reply(key: nat) | Closing

  // ------------------------------------------------- the state under stateMu

  datatype Registry = Registry(closed: bool, lastId: nat, waiting: set<nat>)

  function Registered(r: Registry): Registry {
    Registry(r.closed, r.lastId + 1, r.waiting + {r.lastId + 1})
  }

  function Dropped(r: Registry, id: nat): Registry {
    r.(waiting := r.waiting - {id})
  }

  function Sealed(r: Registry): Registry {
    r.(closed := true, waiting := {})
  }

  // ------------------------------------------------------------ the protocol

  /** A caller of Request, by the id it was given. */
  datatype Caller = Encoding | Waiting | Returned(got: Option<Result>)

  /** A waiter channel: its buffer (capacity two), whether it is closed, and how
      many sends it has seen. */
  datatype Channel = Channel(buffer: seq<Result>, closed: bool, sends: nat)

  /** The goroutines outside the lock: a response taken out of the map but not yet
      sent (inHand), and a shutdown's old map before and after the error is sent. */
  datatype State = State(reg: Registry, chans: map<nat, Channel>, callers: map<nat, Caller>,
                         inHand: set<nat>, failing: set<nat>, failed: set<nat>)

  const Fresh := State(Registry(false, 0, {}), map[], map[], {}, {}, {})

  datatype Label =
    | Register
    | EncodeOk(id: nat)
    | EncodeFail(id: nat)
    | TakeResponse(id: nat)
    | SendResponse(id: nat)
    | Receive(id: nat)
    | Cancel(id: nat)
    | Shutdown
    | SendClosing(id: nat)
    | CloseChannel(id: nat)

  predicate At(s: State, id: nat, c: Caller) { id in s.callers && s.callers[id] == c }

  predicate Enabled(s: State, l: Label) {
    match l
    case Register => !s.reg.closed
    case EncodeOk(id) => At(s, id, Encoding)
    case EncodeFail(id) => At(s, id, Encoding)
    case TakeResponse(id) => id in s.reg.waiting
    case SendResponse(id) => id in s.inHand
    case Receive(id) => At(s, id, Waiting) && id in s.chans && (s.chans[id].buffer != [] || s.chans[id].closed)
    case Cancel(id) => At(s, id, Waiting)
    case Shutdown => true
    case SendClosing(id) => id in s.failing
    case CloseChannel(id) => id in s.failed
  }

  /** A non-blocking send: a full buffer drops the value. */
  function Send(s: State, id: nat, r: Result): map<nat, Channel> {
    if id !in s.chans then s.chans
    else
      var c := s.chans[id];
      s.chans[id := if |c.buffer| < 2 then c.(buffer := c.buffer + [r], sends := c.sends + 1) else c]
  }

  function Do(s: State, l: Label): State {
    match l
    case Register =>
      var id := s.reg.lastId + 1;
      s.(reg := Registered(s.reg), chans := s.chans[id := Channel([], false, 0)], callers := s.callers[id := Encoding])
    case EncodeOk(id) => s.(callers := s.callers[id := Waiting])
    case EncodeFail(id) => s.(reg := Dropped(s.reg, id), callers := s.callers[id := Returned(None)])
    case TakeResponse(id) => s.(reg := Dropped(s.reg, id), inHand := s.inHand + {id})
    case SendResponse(id) => s.(inHand := s.inHand - {id}, chans := Send(s, id, Reply(id)))
    case Receive(id) =>
      if id in s.chans && s.chans[id].buffer != [] then
        var c := s.chans[id];
        s.(chans := s.chans[id := c.(buffer := c.buffer[1..])], callers := s.callers[id := Returned(Some(c.buffer[0]))])
      else s.(callers := s.callers[id := Returned(Some(Closing))])
    case Cancel(id) => s.(reg := Dropped(s.reg, id), callers := s.callers[id := Returned(None)])
    case Shutdown => s.(reg := Sealed(s.reg), failing := s.failing + s.reg.waiting)
    case SendClosing(id) =>
      s.(failing := s.failing - {id}, failed := s.failed + {id}, chans := Send(s, id, Closing))
    case CloseChannel(id) =>
      s.(failed := s.failed - {id},
         chans := if id in s.chans then s.chans[id := s.chans[id].(closed := true)] else s.chans)
  }

  ghost predicate Reaches(s: State, ls: seq<Label>, t: State)
    decreases |ls|
  {
    if ls == [] then s == t else Enabled(s, ls[0]) && Reaches(Do(s, ls[0]), ls[1..], t)
  }

  // ----------------------------------------------------------------- safety

  /** Who may still send on or close a channel. */
  function Owners(s: State, id: nat): nat {
    (if id in s.reg.waiting then 1 else 0) + (if id in s.inHand then 1 else 0)
    + (if id in s.failing then 1 else 0) + (if id in s.failed then 1 else 0)
  }

  predicate MaySend(s: State, id: nat) {
    id in s.reg.waiting || id in s.inHand || id in s.failing
  }

  ghost predicate ChannelOk(s: State, id: nat)
    requires id in s.chans && id in s.callers
  {
    var c, pc := s.chans[id], s.callers[id];
    && Owners(s, id) <= 1
    && c.sends <= 1
    && |c.buffer| <= c.sends
    // every sender still to come finds an open, unused channel
    && (MaySend(s, id) ==> c.sends == 0 && !c.closed)
    && (id in s.failed ==> c.sends == 1 && !c.closed)
    && (c.closed ==> c.sends == 1)
    && (forall r :: r in c.buffer && r.Reply? ==> r.key == id)
    && (pc.Returned? && pc.got.Some? && pc.got.value.Reply? ==> pc.got.value.key == id)
    // a caller that still waits is owed something
    && (!pc.Returned? ==> Owners(s, id) == 1 || c.buffer != [] || c.closed)
    && (!pc.Returned? ==> |c.buffer| == c.sends)
    && (pc.Returned? && pc.got.None? ==> id !in s.reg.waiting)
    && (pc.Returned? && pc.got.Some? ==> !MaySend(s, id))
  }

  ghost predicate Safe(s: State) {
    && s.chans.Keys == s.callers.Keys
    && (forall id :: id in s.chans <==> 1 <= id <= s.reg.lastId)
    && (forall id :: MaySend(s, id) || id in s.failed ==> id in s.chans)
    && (s.reg.closed ==> s.reg.waiting == {})
    && forall id :: id in s.chans ==> ChannelOk(s, id)
  }

  predicate Targets(l: Label, id: nat) {
    !l.Register? && !l.Shutdown? && l.id == id
  }

  lemma BookKeeps(s: State, l: Label)
    requires Safe(s) && Enabled(s, l)
    ensures var t := Do(s, l);
      && t.chans.Keys == t.callers.Keys
      && (forall id :: id in t.chans <==> 1 <= id <= t.reg.lastId)
      && (forall id :: MaySend(t, id) || id in t.failed ==> id in t.chans)
      && (t.reg.closed ==> t.reg.waiting == {})
  {
    match l
    case Register =>
      assert forall id :: MaySend(Do(s, l), id) ==> MaySend(s, id) || id == s.reg.lastId + 1;
    case _ =>
      assert forall id :: MaySend(Do(s, l), id) || id in Do(s, l).failed ==> MaySend(s, id) || id in s.failed;
  }

  lemma TargetKeeps(s: State, l: Label, id: nat)
    requires Safe(s) && Enabled(s, l) && Targets(l, id) && id in s.chans
    ensures id in Do(s, l).chans && id in Do(s, l).callers && ChannelOk(Do(s, l), id)
  {
    assert ChannelOk(s, id);
  }

  lemma OtherKeeps(s: State, l: Label, id: nat)
    requires Safe(s) && Enabled(s, l) && !Targets(l, id) && id in Do(s, l).chans && id in Do(s, l).callers
    ensures ChannelOk(Do(s, l), id)
  {
    if id in s.chans { assert ChannelOk(s, id); }
  }

  lemma StepKeeps(s: State, l: Label)
    requires Safe(s) && Enabled(s, l)
    ensures Safe(Do(s, l))
  {
    var t := Do(s, l);
    BookKeeps(s, l);
    forall id | id in t.chans ensures ChannelOk(t, id) {
      if Targets(l, id) { TargetKeeps(s, l, id); } else { OtherKeeps(s, l, id); }
    }
  }

  /** Safety of every interleaving: each channel has at most one owner, gets at
      most one result, and nothing is registered once the server is closed. */
  lemma {:induction false} RunKeeps(s: State, ls: seq<Label>, t: State)
    requires Safe(s) && Reaches(s, ls, t)
    ensures Safe(t)
    decreases |ls|
  {
    if ls != [] {
      StepKeeps(s, ls[0]);
      RunKeeps(Do(s, ls[0]), ls[1..], t);
    }
  }

  /** No step of any run sends on a closed channel, overflows one, or closes one
      twice: the panics of a Go channel cannot occur here. */
  lemma NeverSendsLate(ls: seq<Label>, t: State, l: Label)
    requires Reaches(Fresh, ls, t) && Enabled(t, l)
    ensures l.SendResponse? || l.SendClosing? ==>
      l.id in t.chans && !t.chans[l.id].closed && t.chans[l.id].sends == 0 && t.chans[l.id].buffer == []
    ensures l.CloseChannel? ==> l.id in t.chans && !t.chans[l.id].closed
  {
    RunKeeps(Fresh, ls, t);
    if l.SendResponse? || l.SendClosing? || l.CloseChannel? { assert ChannelOk(t, l.id); }
  }

  /** A caller that returns a reply returns the reply to its own id. */
  lemma RepliesMatch(ls: seq<Label>, t: State, id: nat)
    requires Reaches(Fresh, ls, t) && id in t.callers && t.callers[id].Returned?
    ensures t.callers[id].got.Some? && t.callers[id].got.value.Reply? ==> t.callers[id].got.value.key == id
  {
    RunKeeps(Fresh, ls, t);
    assert ChannelOk(t, id);
  }

  /** None is stranded: once the server is closed and the steps already begun have
      finished, every caller still waiting can return. */
  lemma NoneStranded(ls: seq<Label>, t: State, id: nat)
    requires Reaches(Fresh, ls, t) && t.reg.closed
    requires t.inHand == {} && t.failing == {} && t.failed == {}
    requires At(t, id, Waiting)
    ensures Enabled(t, Receive(id)) && Do(t, Receive(id)).callers[id].got.Some?
  {
    RunKeeps(Fresh, ls, t);
    assert ChannelOk(t, id);
  }

  /** Once closed, no step registers a waiter, in this run or any longer one. */
  lemma {:induction false} ClosedStaysClosed(s: State, ls: seq<Label>, t: State)
    requires Safe(s) && s.reg.closed && Reaches(s, ls, t)
    ensures t.reg.closed && t.reg.waiting == {} && t.reg.lastId == s.reg.lastId && t.callers.Keys == s.callers.Keys
    decreases |ls|
  {
    if ls != [] {
      StepKeeps(s, ls[0]);
      ClosedStaysClosed(Do(s, ls[0]), ls[1..], t);
    }
  }

  // ---------------------------------------------------------------- who gets what

  /** The ids a run hands a reply, and those it hands the closing error. */
  function Replied(ls: seq<Label>): set<nat> {
    if ls == [] then {} else (if ls[0].SendResponse? then {ls[0].id} else {}) + Replied(ls[1..])
  }

  function Denied(ls: seq<Label>): set<nat> {
    if ls == [] then {} else (if ls[0].SendClosing? then {ls[0].id} else {}) + Denied(ls[1..])
  }

  /** What id's caller holds or may still receive says what its channel was sent. */
  ghost predicate Accounted(s: State, id: nat, replied: bool, denied: bool)
    requires id in s.chans && id in s.callers
  {
    var c, pc := s.chans[id], s.callers[id];
    && (replied || denied <==> c.sends == 1) && !(replied && denied)
    && (forall r :: r in c.buffer ==> r == if replied then Reply(id) else Closing)
    && (pc.Returned? && pc.got.Some? ==> c.sends == 1 && pc.got.value == if replied then Reply(id) else Closing)
    && (denied || id in s.failing ==> s.reg.closed)
  }

  lemma AccountedStep(s: State, l: Label, id: nat, replied: bool, denied: bool)
    requires Safe(s) && Enabled(s, l) && id in s.chans && Accounted(s, id, replied, denied)
    ensures id in Do(s, l).chans && id in Do(s, l).callers
    ensures Accounted(Do(s, l), id, replied || l == SendResponse(id), denied || l == SendClosing(id))
  {
    assert ChannelOk(s, id);
    assert s.chans[id].buffer != [] ==> s.chans[id].buffer[0] in s.chans[id].buffer;
  }

  lemma {:induction false} AccountedRun(s: State, ls: seq<Label>, t: State, id: nat, replied: bool, denied: bool)
    requires Safe(s) && Reaches(s, ls, t) && id in s.chans && Accounted(s, id, replied, denied)
    ensures id in t.chans && id in t.callers && Accounted(t, id, replied || id in Replied(ls), denied || id in Denied(ls))
    decreases |ls|
  {
    if ls != [] {
      StepKeeps(s, ls[0]);
      AccountedStep(s, ls[0], id, replied, denied);
      AccountedRun(Do(s, ls[0]), ls[1..], t, id, replied || ls[0] == SendResponse(id), denied || ls[0] == SendClosing(id));
    }
  }

  /** Over every run from a caller's registration: what it returns with is the reply if
      and only if the read loop sent it one, and the closing error if and only if a
      shutdown sent it that, which only a closed server does; it never returns with
      anything else, and never with both. */
  lemma ResultExactly(before: seq<Label>, s: State, ls: seq<Label>, t: State)
    requires Reaches(Fresh, before, s) && Enabled(s, Register) && Reaches(Do(s, Register), ls, t)
    ensures var id := s.reg.lastId + 1;
      && id in t.callers
      && (t.callers[id].Returned? && t.callers[id].got.Some?
          ==> (t.callers[id].got == Some(Reply(id)) <==> id in Replied(ls)) && (t.callers[id].got == Some(Closing) <==> id in Denied(ls)))
      && !(id in Replied(ls) && id in Denied(ls)) && (id in Denied(ls) ==> t.reg.closed)
  {
    RunKeeps(Fresh, before, s);
    StepKeeps(s, Register);
    AccountedRun(Do(s, Register), ls, t, s.reg.lastId + 1, false, false);
  }

  lemma {:induction false} Joined(s: State, ls: seq<Label>, m: State, rest: seq<Label>, t: State)
    requires Reaches(s, ls, m) && Reaches(m, rest, t)
    ensures Reaches(s, ls + rest, t)
    decreases |ls|
  {
    if ls == [] {
      assert ls + rest == rest;
    } else {
      Joined(Do(s, ls[0]), ls[1..], m, rest, t);
      assert (ls + rest)[1..] == ls[1..] + rest;
    }
  }

  lemma Two(s: State, a: Label, b: Label)
    requires Enabled(s, a) && Enabled(Do(s, a), b)
    ensures Reaches(s, [a, b], Do(Do(s, a), b))
  {
    assert [b][1..] == [] && Reaches(Do(Do(s, a), b), [], Do(Do(s, a), b));
    assert [a, b][1..] == [b] && Reaches(Do(s, a), [b], Do(Do(s, a), b));
  }

  /** A state with one more caller, at this stage, its waiter listed and its channel so. */
  function With(s: State, listed: bool, inHand: bool, channel: Channel, caller: Caller): State {
    var id := s.reg.lastId + 1;
    s.(reg := Registry(s.reg.closed, id, if listed then s.reg.waiting + {id} else s.reg.waiting),
       chans := s.chans[id := channel], callers := s.callers[id := caller],
       inHand := if inHand then s.inHand + {id} else s.inHand)
  }

  ghost predicate Unused(s: State) {
    var id := s.reg.lastId + 1;
    id !in s.reg.waiting && id !in s.inHand && id !in s.callers && id !in s.chans
  }

  lemma ResponseComes(s: State, caller: Caller)
    requires Unused(s)
    ensures var id := s.reg.lastId + 1;
      Reaches(With(s, true, false, Channel([], false, 0), caller), [TakeResponse(id), SendResponse(id)],
              With(s, false, false, Channel([Reply(id)], false, 1), caller))
  {
    var id := s.reg.lastId + 1;
    var m := With(s, true, false, Channel([], false, 0), caller);
    assert s.reg.waiting + {id} - {id} == s.reg.waiting && s.inHand + {id} - {id} == s.inHand;
    assert Do(m, TakeResponse(id)) == With(s, false, true, Channel([], false, 0), caller);
    var h, full := Do(m, TakeResponse(id)), Channel([Reply(id)], false, 1);
    assert h.chans[id].buffer + [Reply(id)] == [Reply(id)];
    assert Send(h, id, Reply(id)) == h.chans[id := full] == s.chans[id := full];
    assert Do(h, SendResponse(id)) == With(s, false, false, full, caller);
    Two(m, TakeResponse(id), SendResponse(id));
  }

  lemma NextIsUnused(before: seq<Label>, s: State)
    requires Reaches(Fresh, before, s)
    ensures Unused(s)
  {
    RunKeeps(Fresh, before, s);
    assert MaySend(s, s.reg.lastId + 1) ==> s.reg.lastId + 1 in s.chans;
  }

  /** A request to an open server gets its reply and touches no other request. */
  lemma RequestIsAnswered(before: seq<Label>, s: State)
    requires Reaches(Fresh, before, s) && !s.reg.closed
    ensures var id := s.reg.lastId + 1;
      Reaches(s, [Register] + [EncodeOk(id)] + [TakeResponse(id), SendResponse(id)] + [Receive(id)],
              With(s, false, false, Channel([], false, 1), Returned(Some(Reply(id)))))
  {
    NextIsUnused(before, s);
    var id := s.reg.lastId + 1;
    var r, w := With(s, true, false, Channel([], false, 0), Encoding), With(s, true, false, Channel([], false, 0), Waiting);
    var f := With(s, false, false, Channel([Reply(id)], false, 1), Waiting);
    One(s, Register);
    assert Do(s, Register) == r;
    One(r, EncodeOk(id));
    assert Do(r, EncodeOk(id)) == w;
    ResponseComes(s, Waiting);
    Received(s, f);
    Joined(s, [Register], r, [EncodeOk(id)], w);
    Joined(s, [Register] + [EncodeOk(id)], w, [TakeResponse(id), SendResponse(id)], f);
    Joined(s, [Register] + [EncodeOk(id)] + [TakeResponse(id), SendResponse(id)], f, [Receive(id)],
           With(s, false, false, Channel([], false, 1), Returned(Some(Reply(id)))));
  }

  /** So does one whose response comes before the caller has written its request. */
  lemma EarlyResponseIsKept(before: seq<Label>, s: State)
    requires Reaches(Fresh, before, s) && !s.reg.closed
    ensures var id := s.reg.lastId + 1;
      Reaches(s, [Register] + [TakeResponse(id), SendResponse(id)] + [EncodeOk(id)] + [Receive(id)],
              With(s, false, false, Channel([], false, 1), Returned(Some(Reply(id)))))
  {
    NextIsUnused(before, s);
    var id := s.reg.lastId + 1;
    var r, e := With(s, true, false, Channel([], false, 0), Encoding), With(s, false, false, Channel([Reply(id)], false, 1), Encoding);
    var f := With(s, false, false, Channel([Reply(id)], false, 1), Waiting);
    One(s, Register);
    assert Do(s, Register) == r;
    ResponseComes(s, Encoding);
    One(e, EncodeOk(id));
    assert Do(e, EncodeOk(id)) == f;
    Received(s, f);
    Joined(s, [Register], r, [TakeResponse(id), SendResponse(id)], e);
    Joined(s, [Register] + [TakeResponse(id), SendResponse(id)], e, [EncodeOk(id)], f);
    Joined(s, [Register] + [TakeResponse(id), SendResponse(id)] + [EncodeOk(id)], f, [Receive(id)],
           With(s, false, false, Channel([], false, 1), Returned(Some(Reply(id)))));
  }

  lemma Received(s: State, f: State)
    requires Unused(s) && f == With(s, false, false, Channel([Reply(s.reg.lastId + 1)], false, 1), Waiting)
    ensures var id := s.reg.lastId + 1;
      Reaches(f, [Receive(id)], With(s, false, false, Channel([], false, 1), Returned(Some(Reply(id)))))
  {
    var id := s.reg.lastId + 1;
    One(f, Receive(id));
    assert [Reply(id)][1..] == [];
    assert Do(f, Receive(id)) == With(s, false, false, Channel([], false, 1), Returned(Some(Reply(id))));
  }

  lemma One(s: State, l: Label)
    requires Enabled(s, l)
    ensures Reaches(s, [l], Do(s, l))
  {
    assert [l][1..] == [] && Reaches(Do(s, l), [], Do(s, l));
  }

  /** A shutdown closes the server for good and leaves every caller that still waits
      without a reply under way a closing error to come. */
  lemma ShutdownDenies(before: seq<Label>, s: State, id: nat)
    requires Reaches(Fresh, before, s) && At(s, id, Waiting)
    ensures Do(s, Shutdown).reg.closed
    ensures id in s.reg.waiting ==> id in Do(s, Shutdown).failing
    ensures id in s.reg.waiting ==> exists t :: Reaches(Do(s, Shutdown), [SendClosing(id), Receive(id)], t) && At(t, id, Returned(Some(Closing)))
  {
    RunKeeps(Fresh, before, s);
    assert ChannelOk(s, id);
    if id in s.reg.waiting {
      var m := Do(s, Shutdown);
      assert Do(m, SendClosing(id)).chans[id].buffer == [Closing];
      Two(m, SendClosing(id), Receive(id));
    }
  }

  // -------------------------------------------------------------- the object

  /** A waiter channel.  Sending on or closing a closed channel panics in Go, so
      both demand an open one of their caller. */
  class Waiter {
    var buffer: seq<Result>
    var closed: bool

    constructor ()
      ensures buffer == [] && !closed
    {
      buffer, closed := [], false;
    }

    method TrySend(r: Result) returns (sent: bool)
      requires !closed
      modifies this`buffer
      ensures sent == (|old(buffer)| < 2)
      ensures buffer == if sent then old(buffer) + [r] else old(buffer)
    {
      sent := |buffer| < 2;
      if sent { buffer := buffer + [r]; }
    }

    method Close()
      requires !closed
      modifies this`closed
      ensures closed
    {
      closed := true;
    }
  }

  class Server {
    var closed: bool
    var outboundId: nat
    var outbound: map<nat, Waiter>

    ghost predicate Valid()
      reads this, outbound.Values
    {
      && (closed ==> outbound == map[])
      && (forall id :: id in outbound ==> id <= outboundId && !outbound[id].closed && outbound[id].buffer == [])
      && (forall i, j :: i in outbound && j in outbound && i != j ==> outbound[i] != outbound[j])
    }

    ghost function View(): Registry
      reads this
    {
      Registry(closed, outboundId, outbound.Keys)
    }

    constructor ()
      ensures Valid() && View() == Fresh.reg
    {
      closed, outboundId, outbound := false, 0, map[];
    }

    /** Request, steps 1 and 2: refuse a closed server or register a waiter. */
    method Register() returns (id: nat, waiter: Option<Waiter>)
      requires Valid()
      modifies this
      ensures Valid()
      ensures waiter.None? <==> old(closed)
      ensures old(closed) ==> View() == old(View())
      ensures !old(closed) ==> View() == Registered(old(View())) && id == outboundId && id in outbound
      ensures waiter.Some? ==> fresh(waiter.value) && outbound == old(outbound)[id := waiter.value]
    {
      if closed {
        return 0, None;
      }
      outboundId := outboundId + 1;
      id := outboundId;
      var ch := new Waiter();
      outbound := outbound[id := ch];
      waiter := Some(ch);
    }

    /** Request, steps 4 and 5: withdraw the waiter. */
    method Drop(id: nat)
      requires Valid()
      modifies this`outbound
      ensures Valid() && View() == Dropped(old(View()), id)
      ensures outbound == old(outbound) - {id}
    {
      outbound := outbound - {id};
    }

    /** deliverOutbound: hand a response to the waiter its id names, if any. */
    method Deliver(id: nat) returns (found: bool)
      requires Valid()
      modifies this`outbound, outbound.Values
      ensures found == (id in old(outbound))
      ensures Valid() && View() == Dropped(old(View()), id) && outbound == old(outbound) - {id}
      ensures found ==> old(outbound)[id].buffer == [Reply(id)]
      ensures forall other :: other in outbound ==> outbound[other].buffer == old(outbound[other].buffer)
    {
      found := id in outbound;
      if found {
        var ch := outbound[id];
        outbound := outbound - {id};
        var _ := ch.TrySend(Reply(id));
      }
    }

    /** failOutbound: seal the server, then fail every waiter it still held. */
    method FailAll()
      requires Valid()
      modifies this, outbound.Values
      ensures Valid() && View() == Sealed(old(View()))
      ensures forall id :: id in old(outbound) ==> old(outbound)[id].closed && old(outbound)[id].buffer == [Closing]
    {
      var held := outbound;
      outbound, closed := map[], true;
      FailEach(held);
    }

    static method FailEach(all: map<nat, Waiter>)
      requires forall id :: id in all ==> Untouched(all[id])
      requires forall i, j :: i in all && j in all && i != j ==> all[i] != all[j]
      modifies all.Values
      ensures forall id :: id in all ==> FailedWith(all[id])
    {
      var ids := all.Keys;
      while ids != {}
        invariant ids <= all.Keys
        invariant forall id :: id in all ==> if id in ids then Untouched(all[id]) else FailedWith(all[id])
        decreases |ids|
      {
        var id :| id in ids;
        FailOne(all[id]);
        ids := ids - {id};
      }
    }

    static predicate Untouched(ch: Waiter)
      reads ch
    {
      !ch.closed && ch.buffer == []
    }

    static predicate FailedWith(ch: Waiter)
      reads ch
    {
      ch.closed && ch.buffer == [Closing]
    }

    static method FailOne(ch: Waiter)
      requires Untouched(ch)
      modifies ch
      ensures FailedWith(ch)
    {
      var _ := ch.TrySend(Closing);
      ch.Close();
    }
  }
}
