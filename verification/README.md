# Marshal: protocol and agent-loop proofs

A Dafny model of two layers of the Marshal agent and proofs about it.

The first layer is the agent client protocol server (`internal/acp`): JSON-RPC
routing, the waiters of outgoing requests, the barrier that makes a call's updates
precede its response, session runtimes, turn slots and stops, work forwarders, and
the patches that keep a client's stack in step with the server's. These are
concurrent protocols. Each is a state machine whose labels are the source's atomic
steps (one critical section, one channel operation); a run is any sequence of enabled
labels, and the main lemmas hold of every run. Where the source changes an object in
place, a class with the same fields does too, and each method's postcondition ties the
new fields to the step functions the lemmas are about.

The second layer is the agent's loops (`internal/agent`): policy, approval, edits,
hooks and admission of one tool call, dispatch of many, the tool cache, the retry
ladder, the fold of a response stream, the work budget, finalization and the trimming
of replayed reasoning. These are methods with loops; the user, the provider, the rules
and the clock are a `World` that may answer anything at each moment, and a log records
what was asked, so a postcondition can speak about a whole call.

| File | Component |
|---|---|
| `StackPatch.dfy` | the stack projector and its clients |
| `Barrier.dfy`, `StackBarrier.dfy` | fences, forwarders and the response barrier; the stack's idle flusher and turn |
| `Outbound.dfy`, `Frames.dfy` | outgoing requests; incoming frames, cancels and responses |
| `Sessions.dfy`, `Turns.dfy`, `WorkForwarders.dfy` | the lifecycle protocols |
| `ToolPolicy.dfy`, `Dispatch.dfy`, `ToolCache.dfy` | tool calls |
| `RetryLadder.dfy`, `StreamFold.dfy`, `Finalize.dfy` | model calls |
| `Budget.dfy`, `ReasoningTrim.dfy`, `Usage.dfy` | bounds, trimming, telemetry |
| `Common.dfy` | `Option` |

`dafny verify dfyconfig.toml` checks everything.

## Where the code and its documentation part

Each of these is proved below, by a run or input that shows it or by a postcondition
that covers it, beside the exact condition under which the documented behaviour does hold.

- A roots-only change of a stack tree sends no patch, but a later read answers with the
  new roots at the old revision, so two clients can hold one revision and different
  roots (`internal/acp/stack.go:92-94`, `:338-347`, against the comment at `:38-40`).
- A tree that repeats a node id leaves clients on a node the projector has forgotten.
  The diff still reaches its tree exactly when, for each id some of whose nodes are sent
  again, the last one is.
- An event buffered after a turn's final drain found nothing more is never forwarded,
  though a barrier that began after it completes.
- The idle flusher leaves a change to whatever turn holds the slot when it decides
  (`internal/acp/stack.go:413`). The barrier is kept exactly when the change is shown by
  then, there is no turn, or the turn is one whose fence the barrier listed and whose
  closing flush is still to come; a turn that has flushed, is starting, or started after
  the fences were listed is not (`internal/acp/turn.go:700-711`, `:749-754`). With the
  turn's fence listed first, nothing shows what only the flusher's buffer held while that
  turn loops.
- A request's cancel is lost exactly when, since it arrived, another request arrived under
  its id or another request of that id ended.
- A second, concurrent `Close` of the work controller returns before the forwarders stop;
  something is still sent exactly while one is registered or running.
- Between one turn leaving the map and unregistering its stop group, a cancel of the next
  turn stops the old group. A cancel that finds no stored group misses its turn exactly
  when another's is registered and the turn is neither over nor stopped.
- A provider's call id that looks like `s1-a2` is dropped from the call's reply.
- `executeActions` with no semaphore slot waits for the context to end.
- A negative `MaxRetries` sends nothing and reports success (callers pass only positive ones).
- An oversized prompt is not classified when it is reported after a reconnect.
- A completion without usage wipes the usage an earlier completion reported, and nothing
  else outside an abort does.
- A cache hit is served before the hook and steering gates that would refuse a fresh call,
  and a failed write clears nothing, so its effect may be served stale.
- A positive base `b` allows `4 * b + 19` turns and no more.
- More than 200 new metrics rows between two telemetry calls lose the oldest.

## Model

| member | source | states |
|---|---|---|
| `StackPatch.DiffReaches` | internal/acp/stack.go:75-102 | applying one diff's patch takes a client that mirrors the sent nodes exactly to the new tree's nodes |
| `StackPatch.DiffSilentExactly` | internal/acp/stack.go:92-94 | a diff sends nothing if and only if the client already holds the new tree's nodes |
| `StackPatch.DiffIsMinimal` | internal/acp/stack.go:75-102 | any patch with the same effect upserts every node and removes every id this one does |
| `StackPatch.DiffReachesExactly` | internal/acp/stack.go:79-86 | without distinct ids, the diff reaches its tree if and only if the last node of every id that is sent again is itself sent again |
| `StackPatch.RepeatedIdDiverges` | internal/acp/stack.go:79-86 | a run with a repeated id after which the client's nodes are not the remembered ones |
| `StackPatch.RunKeeps` | internal/acp/stack.go:185-201 | over every run of flushes and reads the revisions form a gapless chain and every snapshot followed by its patches mirrors what was sent |
| `StackPatch.ReplicaConverges` | internal/acp/stack.go:317-348 | a client that takes any snapshot of a run and follows the patches from its revision holds exactly the last projected tree's nodes and the current revision |
| `StackPatch.InStepExactly` | internal/acp/stack.go:92-100 | when the roots a projection answers with are the recorded ones, both directions |
| `StackPatch.RootsConverge` | internal/acp/stack.go:185-201 | in runs whose roots change only together with some node, every client's roots are the last tree's |
| `StackPatch.RootsOnlyChangeSplitsClients` | internal/acp/stack.go:338-347 | a two-read run after which two snapshots share a revision and differ in roots |
| `StackPatch.StackProjector.Diff` | internal/acp/stack.go:75-102 | the loops over nodes and sent order compute exactly the patch and the new remembered state |
| `StackPatch.StackProjector.MarkDirty` | internal/acp/stack.go:132-141 | the fields after marking |
| `StackPatch.StackProjector.Flush` | internal/acp/stack.go:185-201 | fields and patch after a flush: skipped when inactive or clean and not due |
| `StackPatch.StackProjector.Read` | internal/acp/stack.go:317-348 | activation at revision 1 or a diff, and the snapshot answered |
| `StackPatch.FlushSendsExactly` | internal/acp/stack.go:185-201 | a flush of an active stack that is marked, due or flushed regardless sends a patch if and only if the client's nodes differ from the tree's; the client then holds the tree, the mark is gone and the wake time is the new one |
| `StackPatch.QuietFlush` | internal/acp/stack.go:185-191 | any other flush sends nothing and changes nothing |
| `StackPatch.ReadAnswers` | internal/acp/stack.go:317-348 | a read answers with the tree itself, leaves the stack active and unmarked and the wake time alone |
| `StackPatch.MarkedIsShown` | internal/acp/stack.go:132-201 | over any run the first flush after a mark, one for marked stacks only included, leaves every client with that flush's tree |
| `StackPatch.PatchesInOrder` | internal/acp/stack.go:79-91 | upserts come in the tree's order and removals in the last sent one |
| `Barrier.ReadYourWrites` | internal/acp/server.go:518-566 | in every run, an event buffered in a forwarder the barrier has yet to ask is in the output before that barrier's response, unless the bound expired, the forwarder quit, a cancelled turn answered that very barrier early, or a best-effort buffer overflowed and dropped it |
| `Barrier.StepKeeps` | internal/acp/fence.go:41-55 | every step keeps what a barrier owes an event: sent, excused, or buffered for a forwarder it will ask or is being answered by |
| `Barrier.RunKeeps` | internal/acp/turn.go:962-980 | the same over every run, final drains and closed fences included |
| `Barrier.TerminalNeverDrops` | internal/pubsub/broker.go:88-102 | in every run a turn's forwarder drops no event and never leaves without its drain |
| `Barrier.TurnReadYourWrites` | internal/acp/turn.go:999-1033 | for a turn, cancelled or not, only an expired bound or a fence answered early costs a barrier an update; a barrier that waits for the final drain misses none |
| `Barrier.LateNeverSent` | internal/acp/turn.go:1021-1033 | once a final drain found nothing more, an event not yet forwarded never is, in any continuation |
| `Barrier.LateEventIsMissed` | internal/acp/turn.go:1021-1033 | a run in which a barrier begins while such an event is buffered, meets no excuse, and is ready to respond without it |
| `Barrier.FenceSet.Add` | internal/acp/fence.go:70-75 | a fence joins the end of its session's list and no other list changes |
| `Barrier.FenceSet.Remove` | internal/acp/fence.go:81-96 | the first occurrence leaves its session's list, the order of the rest stays, an unknown fence changes nothing |
| `Barrier.PlainReadYourWrites` | internal/acp/server.go:518-566 | the same in terms of what happened: in a run in which the barrier's bound does not expire, the forwarder is not cancelled and its buffer never overflows, there is no excuse at all |
| `Barrier.SendsInOrder` | internal/acp/turn.go:983-1033 | first in, first out: over any stretch of any run what a forwarder held and was given is, in order, what it sent and what it dropped, then what it still holds, and it dropped one event for each publish that found a best-effort buffer full |
| `Barrier.TurnSendsInOrder` | internal/acp/turn.go:983-1033 | a turn's updates are each sent once and in the order of publishing, in every run |
| `Barrier.EveryBarrierCompletes` | internal/acp/fence.go:41-66 | from every reachable state an unanswered barrier reaches its response by its own steps and those of the forwarders it asks, with no bound expiring and nothing cancelled |
| `Barrier.SendsAll` | internal/acp/turn.go:983-1033 | without any barrier a forwarder that loops or drains sends all it holds |
| `StackBarrier.BarrierShows` | internal/acp/stack.go:400-427 | idle fence first: when a barrier is answered the client has seen every state up to its start, if the flusher found no turn or a listed turn whose closing flush was still to come |
| `StackBarrier.StepRemembers` | internal/acp/stack.go:185-201 | nothing unseen is forgotten: it is marked dirty or still buffered, however many events the buffer dropped |
| `StackBarrier.StepKeepsPromise` | internal/acp/turn.go:962-980 | every step of flusher, turn and barrier keeps the promise made to a barrier that asks the flusher first |
| `StackBarrier.RunKeeps` | internal/acp/turn.go:1509-1528 | both over every run |
| `StackBarrier.WindowMisses` | internal/acp/turn.go:700-711 | from any state with something unseen and a slot reserved outside that span, the barrier completes with nothing more sent |
| `StackBarrier.DecisionExactly` | internal/acp/stack.go:413-426 | at the flusher's decision, every continuation of the barrier finds what it asked for shown if and only if it is shown already, there is no turn, or the turn is listed and its closing flush is still to come |
| `StackBarrier.UncoveredMisses` | internal/acp/turn.go:700-754 | otherwise, a turn started after the listing included, a continuation answers with nothing more sent |
| `StackBarrier.SecondDecisionExactly` | internal/acp/stack.go:413-426 | with the flusher asked last the same holds if and only if it is shown already or there is no turn |
| `StackBarrier.TurnFirstShows` | internal/acp/turn.go:962-980 | turn fence first, idle fence second: the whole barrier shows every state up to its start if the turn was not cut off and nothing was unseen or the turn knew of it (marked, among its own events, or draining or flushing), or if the flusher then found no turn |
| `StackBarrier.StepKeepsFirst` | internal/acp/turn.go:976-979 | every step keeps that promise |
| `StackBarrier.TurnFirstMisses` | internal/acp/stack.go:413-426 | from any state with a looping turn that does not know of something unseen, the whole barrier in that order ends with nothing more sent |
| `StackBarrier.TurnServedExactly` | internal/acp/turn.go:812-815 | serving the turn's buffer leaves the stack dirty if and only if it was or an event that is let through was buffered |
| `StackBarrier.Flusher.FlushDirty` | internal/acp/stack.go:170-174 | a dirty or due stack is shown at its current state, a clean one sends nothing |
| `StackBarrier.Flusher.ServeIdleFence` | internal/acp/stack.go:400-427 | with no turn everything buffered is shown; with a turn it is only marked |
| `StackBarrier.Flusher.ServeTurnFence` | internal/acp/turn.go:962-980 | the turn's own service shows the current state exactly when due, already dirty, or an event that is let through was buffered |
| `StackBarrier.TurnFirstPlain` | internal/acp/turn.go:962-980 | turn fence first, in terms of what happened: when the turn knew of what was unseen at the start and no fence service of it was cut off, the answer finds it shown |
| `StackBarrier.IdleShowsAll` | internal/acp/stack.go:428-454 | with no turn, taking what is buffered and one tick show every change, from every reachable state |
| `StackBarrier.TurnShowsAll` | internal/acp/turn.go:983-1015 | a looping turn's events and one tick show the current state exactly when it was marked or one of them is let through |
| `StackBarrier.FlushesShow` | internal/acp/stack.go:185-201 | a read and a closing flush show the current state; a tick and a fence's flush exactly when marked or due |
| `StackBarrier.TurnsBeginFresh` | internal/acp/turn.go:693-754 | a turn's buffer is empty when its fence is listed, and no earlier barrier has listed it |
| `StackBarrier.EveryBarrierCompletes` | internal/acp/stack.go:400-427 | no barrier is stuck: from every reachable state of one, in either order, its own steps and its turn's end it |
| `StackBarrier.EndsAfterBoth` | internal/acp/server.go:518-566 | a barrier ends only after both fences were answered or gone |
| `StackBarrier.AnswersAfterFlush` | internal/acp/turn.go:976-979 | a turn's fence that was being served is answered with its flush |
| `Outbound.RunKeeps` | internal/acp/server.go:201-271 | in every interleaving each waiter channel has at most one owner and one result, and none is registered once closed |
| `Outbound.NeverSendsLate` | internal/acp/server.go:664-711 | no step of any run sends on a closed or full waiter channel or closes one twice |
| `Outbound.RepliesMatch` | internal/acp/server.go:664-693 | a caller that returns a reply returns the one to its own id |
| `Outbound.NoneStranded` | internal/acp/server.go:697-711 | after shutdown, once the steps begun have finished, every waiting caller can return with a result |
| `Outbound.ClosedStaysClosed` | internal/acp/server.go:207-219 | once closed, no continuation registers a waiter or admits a caller |
| `Outbound.Server.Register` | internal/acp/server.go:207-219 | refused when closed; otherwise a fresh id and a new empty waiter |
| `Outbound.Server.Drop` | internal/acp/server.go:232-237 | the waiter leaves the map, everything else stays |
| `Outbound.Server.Deliver` | internal/acp/server.go:664-693 | a response to a waiting id takes it out of the map and fills its channel; an unknown id changes nothing |
| `Outbound.Server.FailAll` | internal/acp/server.go:697-711 | the map is emptied and marked closed, and every waiter it held gets the closing error and is closed |
| `Outbound.ResultExactly` | internal/acp/server.go:201-271 | over every run from a caller's registration it returns with its reply if and only if the read loop sent it one, with the closing error if and only if a shutdown sent it that, and never both |
| `Outbound.RequestIsAnswered` | internal/acp/server.go:201-271 | from every reachable open state a new request gets its reply and touches no other request |
| `Outbound.EarlyResponseIsKept` | internal/acp/server.go:664-693 | so does one whose response comes before the caller has written its request |
| `Outbound.ShutdownDenies` | internal/acp/server.go:697-711 | a shutdown closes the server and leaves each registered waiting caller a closing error to return with |
| `Frames.OneResponseEach` | internal/acp/server.go:590-659 | for every frame sequence and interleaving an id-bearing frame with a method gets at most one response and exactly one when no handler is left, an id-less one none, each under the frame's own id |
| `Frames.RunKeeps` | internal/acp/server.go:880-924 | responses written and owed add up for every frame in every run, panics and unknown methods included |
| `Frames.CancelNeverStrays` | internal/acp/server.go:424-436 | a cancel ends nothing but a request still running under the id it names |
| `Frames.DistinctStaysRegistered` | internal/acp/server.go:400-419 | with distinct in-flight ids each running request is the one registered under its id |
| `Frames.CancelHits` | internal/acp/server.go:424-436 | with distinct in-flight ids a cancel cancels exactly the running request it names |
| `Frames.CancelHitsExactly` | internal/acp/server.go:400-436 | whatever the ids, a cancel reaches the running request it names if and only if no request arrived under its id and no other of that id ended since it arrived |
| `Frames.ListedExactly` | internal/acp/server.go:400-419 | a running request stays the registered one exactly as long as no step disturbs its entry |
| `Frames.RepeatedIdLosesCancel` | internal/acp/server.go:400-436 | a run with a repeated id in which a cancel of the running request cancels nothing |
| `Frames.Router.HandleFrame` | internal/acp/server.go:590-659 | the state after one frame: malformed, response, cancel, refused, notification, unknown or dispatched |
| `Frames.Router.HandleCancelRequest` | internal/acp/server.go:424-436 | the named in-flight request is cancelled, an unknown one ignored |
| `Frames.Router.FinishHandler` | internal/acp/server.go:880-924 | a handler's end, normal, failed or panicked, leaves its answer owed and its registration gone |
| `Frames.Router.Answer` | internal/acp/server.go:768-788 | exactly one response is written for an owed answer |
| `Frames.Router.WriteError` | internal/acp/server.go:847-858 | an error response under the frame's id |
| `Frames.ArrivalsSay` | internal/acp/server.go:590-659 | each kind of frame with what it does: which refusal with which code, a registration, or nothing |
| `Frames.AnswersSay` | internal/acp/server.go:880-924 | over every run a request's response is a success exactly when its method has a handler and that succeeded, and otherwise carries the handler's own code, method not found, or internal error |
| `Frames.RequestIsAnswered` | internal/acp/server.go:757-788 | a request that arrives in any reachable state can be answered, its one response last in the log |
| `Sessions.RunKeeps` | internal/acp/session.go:380-440 | in every interleaving each started runtime is held by one call, published under its own id, or closed exactly once |
| `Sessions.CloserIsSafe` | internal/acp/session.go:192-221 | the closer never runs on a published runtime and never twice |
| `Sessions.NothingLeaks` | internal/acp/session.go:654-685 | with no call in flight every started runtime is published or closed exactly once, and after an emptied map closed |
| `Sessions.EachClosedOnce` | internal/acp/session.go:654-685 | closing a list closes each new runtime once and none already closed |
| `Sessions.SessionManager.CloseRuntimeOnce` | internal/acp/session.go:192-221 | the closer runs only for a runtime not closed before |
| `Sessions.SessionManager.Detach` | internal/acp/session.go:709-720 | the entry leaves the map and is returned |
| `Sessions.SessionManager.ReplaceExisting` | internal/acp/session.go:731-744 | a present runtime is detached, then its turn cancelled, then it is closed; an absent one changes nothing |
| `Sessions.SessionManager.PublishReplacement` | internal/acp/session.go:754-777 | the runtime is published, then a different prior one's turn is cancelled, then that is closed; the same pointer changes nothing |
| `Sessions.SessionManager.TeardownIfStillCurrent` | internal/acp/session.go:809-823 | only a runtime still published is detached and closed |
| `Sessions.SessionManager.CloseAll` | internal/acp/session.go:654-685 | the map is emptied, then each session exactly once has its turn cancelled and then its runtime closed |
| `Sessions.CancelsFirst` | internal/acp/session.go:654-685 | in a teardown every closer call follows directly on the cancel of its session's turn, and every session's turn is cancelled |
| `Sessions.LeavesMapExactly` | internal/acp/session.go:709-823 | a published runtime leaves the map if and only if its id is detached, everything is, another is published under its id, or its own load's replay fails |
| `Sessions.StaysPublished` | internal/acp/session.go:709-823 | so over every run what was published still is unless such a step came; a successful load leaves its runtime published |
| `Sessions.Publishes` | internal/acp/session.go:754-777 | a create or load that holds a runtime publishes it, closes the one it replaces and is over, or replays |
| `Sessions.ReplayEnding` | internal/acp/session.go:809-823 | a replay that succeeds leaves the map alone; one that fails removes and closes its own runtime if that is still published |
| `Sessions.ClosesAny` | internal/acp/session.go:731-744 | a close of a published session, or giving up an unpublished runtime, goes through whatever else is in flight |
| `Turns.SlotsAreExclusive` | internal/acp/turn.go:657-711 | in every interleaving a session has one turn between reservation and release, done closes once and only out of the map, and a nil CancelAndWait leaves its slot gone |
| `Turns.StopPrecedesCancel` | internal/acp/turn.go:1982-2004 | when an explicit cancel reaches the context its stop has reached the turn's group, is retained for it, or the turn is over, unless the request strayed to another turn's group |
| `Turns.StopReachesExactly` | internal/acp/turn.go:1982-2004 | a cancel that finds no stored group reaches its turn if and only if no other turn's group is registered, or the turn is over or stopped already |
| `Turns.StraysAcrossTurnsOnly` | internal/acp/turn.go:2013-2035 | a request strays only between turns of which one has left the map |
| `Turns.StopCanMissTheNewTurn` | internal/acp/turn.go:700-711 | a reachable state in which a cancel of the new turn has stopped the old group and retained nothing |
| `Turns.RetainedStopIsAdopted` | internal/acp/turn.go:756-778 | a turn that registers with a stop retained is stopped and cancels itself before it works |
| `Turns.RetainedUntilAdopted` | internal/app/session/session.go:3202-3257 | in every continuation a retained stop is still retained, or a turn of its session that had not registered then has registered since and is stopped |
| `Turns.OnlyCancelStops` | internal/acp/turn.go:693-711 | runs without an explicit cancel stop no group, retain no stop, and cancel no context before its turn's cleanup unless the turn failed or its request ended |
| `Turns.CancelledExactly` | internal/acp/turn.go:700-778 | in every run a turn's context is cancelled if and only if its cleanup released it, it adopted a retained stop, it failed or its request ended, or an explicit cancel reached it |
| `Turns.RunKeeps` | internal/acp/turn.go:657-711 | the slot, group and call invariants over every run |
| `Turns.SilentExactly` | internal/acp/host.go:149-168 | the chained cancel reports no error if and only if every canceller ever attached did |
| `Turns.StopGroups.Begin` | internal/app/session/session.go:3227-3257 | registration replaces the group and adopts a retained stop |
| `Turns.StopGroups.Request` | internal/app/session/session.go:3202-3217 | the registered group is stopped, or the request retained |
| `Turns.StopGroups.End` | internal/app/session/session.go:3263-3274 | only the caller's own group is unregistered and nothing is stopped |
| `Turns.StopGroups.StopTurnWork` | internal/acp/turn.go:1982-2004 | a stored group is stopped directly, otherwise the session is asked |
| `Turns.TurnManager.Reserve` | internal/acp/turn.go:683-691 | a duplicate is refused and changes nothing, otherwise the slot is the session's |
| `Turns.TurnManager.Release` | internal/acp/turn.go:700-706 | the slot leaves the map only while it is the session's |
| `Turns.AgentHost.AddTurnCanceller` | internal/acp/host.go:143-147 | the chain grows by one at its end |
| `Turns.AgentHost.ChainedCancel` | internal/acp/host.go:155-168 | the errors are those of every attached canceller, in order |
| `Turns.ReservesExactly` | internal/acp/turn.go:683-691 | in every reachable state a session gets a turn if and only if no turn of it holds the reservation, and otherwise nothing changes |
| `Turns.TurnEnds` | internal/acp/turn.go:700-711 | by its own steps every turn ends out of the map with its done closed once |
| `Turns.CancelGoesThrough` | internal/acp/turn.go:2013-2035 | wherever a cancel that found a turn has got to, it can go through: the context is cancelled, the turn ends and the wait returns no error; a wait that times out returns that |
| `WorkForwarders.RunIsSafe` | internal/acp/watch.go:501-581 | in every interleaving one forwarder a session may send, done closes at most once, each snapshot carries its forwarder's epoch, and a retiring one finds its own entry or none |
| `WorkForwarders.RunKeeps` | internal/acp/watch.go:609-657 | the table, forwarder and close invariants over every run |
| `WorkForwarders.ClosedRegistersNothing` | internal/acp/watch.go:501-517 | once closed no continuation registers a forwarder |
| `WorkForwarders.NothingSentAfterFirstClose` | internal/acp/watch.go:639-657 | after the Close that set the flag returned nothing is ever sent |
| `WorkForwarders.SentAfterCloseExactly` | internal/acp/watch.go:609-657 | once the flag is set something is still sent in some continuation if and only if a forwarder is registered or running, whichever Close has returned |
| `WorkForwarders.SecondCloseReturnsEarly` | internal/acp/watch.go:641-644 | a run in which another Close has returned and a snapshot is sent after it |
| `WorkForwarders.WorkManager.Ensure` | internal/acp/watch.go:501-517 | a forwarder is registered exactly when open and none is listed |
| `WorkForwarders.WorkManager.Retire` | internal/acp/watch.go:609-615 | only the forwarder's own entry is removed, and closed is reported |
| `WorkForwarders.WorkManager.CloseStart` | internal/acp/watch.go:639-651 | the first Close takes every listed forwarder, a later one nothing |
| `WorkForwarders.SendsItsEpoch` | internal/acp/watch.go:518-581 | over every run a bound forwarder sends each delivery of its own epoch and no other |
| `WorkForwarders.RegistersExactly` | internal/acp/watch.go:501-517 | a forwarder is registered if and only if the controller is open and lists none for the session, and on a rebind only if it was replaced |
| `WorkForwarders.ForwarderEnds` | internal/acp/watch.go:518-637 | by its own steps any forwarder reaches its end |
| `WorkForwarders.CloseCompletes` | internal/acp/watch.go:639-657 | from every reachable state a Close that waits can return |
| `ToolPolicy.ExecuteToolCall` | internal/agent/execute.go:842-1005 | a handler starts only with arguments whose parse is the map evaluated, under a proof for exactly those facts that within this call was allowed or consented to, with the last hook silent on them after at most one rewrite and an ordinary tool's proof admitted live and spent; otherwise nothing started, no lease held, no proof spent; and the handler starts exactly when, and with exactly the arguments and proof that, the call's course in its world says |
| `ToolPolicy.PolicyLoop` | internal/agent/execute.go:842-917 | the rewrite loop ends refused, or passed with every earlier hook a rewrite and at most two hooks run, exactly as the call's course says |
| `ToolPolicy.OnePass` | internal/agent/execute.go:847-916 | one iteration: settled policy, then the hook on exactly what was settled |
| `ToolPolicy.SettlePolicy` | internal/agent/execute.go:848-880 | parse, schema validation and evaluation before the policy decision; arguments change only through an approval |
| `ToolPolicy.HandlePolicyDecision` | internal/agent/execute.go:191-333 | Deny and a missing system capability refuse without a prompt, Allow passes unchanged, Confirm passes only what the user approved or typed, with a fresh proof for exactly that |
| `ToolPolicy.ApprovePrompt` | internal/agent/execute.go:224-245 | approval by the prompt's key, or a live Allow when Auto was turned on meanwhile |
| `ToolPolicy.ApplyEdit` | internal/agent/execute.go:246-322 | an edit is re-evaluated as a new call and the parse of its arguments is its map |
| `ToolPolicy.ConsentToEdit` | internal/agent/execute.go:289-320 | an edited command is approved by its own prompt, an ordinary edit by the prompt it was typed in |
| `ToolPolicy.AdmitOrdinaryTool` | internal/agent/execute.go:341-363 | one to four attempts, retried only for a moved snapshot and with a newly evaluated Allow; a lease exactly on success; never a stale proof |
| `ToolPolicy.AdmitAndCommit` | internal/agent/execute.go:994-1004 | an ordinary tool's proof is entitled at a live moment under its own snapshot, spent, and the lease given back |
| `ToolPolicy.Launch` | internal/agent/execute.go:919-1005 | the gates and admission between a settled pass and the handler |
| `ToolPolicy.Authorizer.Evaluate` | internal/tools/policy/admission.go:71-97 | a fresh unspent proof of the call under the current snapshot |
| `ToolPolicy.Authorizer.ApproveExact` | internal/tools/policy/admission.go:101-112 | the key is recorded on an unspent proof only |
| `ToolPolicy.Authorizer.BeginTool` | internal/tools/policy/admission.go:116-170 | a lease only for the proof's own call, entitled by the live rules, under an unchanged snapshot; a stale proof exactly for another call or a spent one |
| `ToolPolicy.Authorizer.Commit` | internal/tools/policy/admission.go:179-189 | a proof is spent once |
| `ToolPolicy.AnswersLead` | internal/agent/execute.go:191-245 | what every judgement and every answer of the user leads to; an approved unedited prompt goes on with the arguments shown under the proof approved by its key, or with Auto on if and only if the rules allow the call now |
| `ToolPolicy.EditsLead` | internal/agent/execute.go:246-322 | what every edit leads to: a new command replaces the command only, other arguments replace all, both are judged anew, and only an edited command needs a consent of its own |
| `ToolPolicy.HooksLead` | internal/agent/execute.go:842-917 | what each answer of the hook leads to |
| `ToolPolicy.AllowedStarts` | internal/agent/execute.go:842-1005 | a call the rules allow, with a silent hook and its lease there, starts its handler with its own arguments |
| `ToolPolicy.ApprovedStarts` | internal/agent/execute.go:222-245 | so does one the user approves unedited, under the proof approved by the prompt's key |
| `ToolPolicy.AutoStartsExactly` | internal/agent/execute.go:228-238 | one approved while Auto was turned on starts if and only if the rules allow it now |
| `ToolPolicy.EditedStarts` | internal/agent/execute.go:264-322 | an ordinary tool starts with the arguments typed into its prompt, unless the rules deny them |
| `ToolPolicy.RewrittenStartsOnce` | internal/agent/execute.go:842-917 | one rewrite is settled like new arguments and starts with them; a second ends the call |
| `ToolPolicy.RenewedIsLeased` | internal/agent/execute.go:349-362 | a lease refused for a moved authority is taken under a fresh proof if and only if a retry is left and the rules allow the call now |
| `ToolPolicy.OtherRefusalsStand` | internal/agent/execute.go:349-351 | any other refusal is final |
| `ToolPolicy.LeasedExactly` | internal/tools/policy/admission.go:116-170 | when a lease is there to take, in terms of the live rules, the consent, the gate and the authority |
| `ToolPolicy.CallsDescribed` | internal/agent/execute.go:128-186 | a shell tool is described by the command that will run, a bare test run by the configured one, anything else by its arguments |
| `ToolPolicy.CalmStarts` | internal/agent/execute.go:842-1005 | in a world where nothing stands in the way the handler starts |
| `Dispatch.EnvelopeExactly` | internal/agent/step.go:69-79 | the scan recognises exactly the strings s, digits, -a, digits |
| `Dispatch.ReplyKeepsId` | internal/agent/execute.go:1134-1140 | a settled reply carries its call's id if and only if the id is not empty and not of that form |
| `Dispatch.EnvelopeIdsStayOff` | internal/agent/step.go:62-79 | no synthesised id reaches the wire |
| `Dispatch.BatchSettles` | internal/agent/execute.go:1295-1324 | in every interleaving a joined batch has one reply for each call in order, no executor ran twice or is still running, and the limit was never exceeded |
| `Dispatch.RunKeeps` | internal/agent/execute.go:1553-1593 | the batch invariants over every interleaving |
| `Dispatch.WorkShrinks` | internal/agent/execute.go:1553-1593 | every step but the context's end uses up work, so dispatch terminates |
| `Dispatch.StuckExactly` | internal/agent/execute.go:1555-1571 | an unjoined batch can make no step of its own if and only if the semaphore has no slot at all and the context has not ended |
| `Dispatch.NoSlotsBlocks` | internal/agent/execute.go:1555-1571 | with no slot one call blocks |
| `Dispatch.RunBatch` | internal/agent/execute.go:1295-1324 | under any schedule one settled reply a call and every executor ended; a refused call's never began, and without a semaphore each other's did |
| `Dispatch.FlushRunBatch` | internal/agent/execute.go:1282-1325 | pending sub-agent calls run as one batch after everything earlier ended, a single one alone |
| `Dispatch.ExecuteNativeToolCalls` | internal/agent/execute.go:1262-1366 | one reply a call in declared order; executors overlap only inside one consecutive sub-agent batch and otherwise begin in declared order after the earlier ended; a call's executor begins if and only if it is not refused at its turn or is a lone sub-agent run |
| `Dispatch.AnswersKeepId` | internal/agent/execute.go:1238-1260 | a reply to a call with an ordinary non-empty id carries it |
| `Dispatch.RunSerial` | internal/agent/execute.go:1526-1548 | serial actions one at a time with their slots filled, the others noted in order |
| `Dispatch.ExecuteActions` | internal/agent/execute.go:1519-1600 | one reply an action in declared order for any limit; serial tools overlap nothing and go before every parallel one; a refused action never begins, and every other does unless it is parallel and the context may end or there is no slot |
| `Dispatch.RanKeeps` | internal/agent/execute.go:1295-1324 | in every interleaving no refused member's executor begins, and each other filled member's has, unless the context ended while it waited for a slot |
| `Dispatch.RunPending` | internal/agent/execute.go:1295-1324 | two or more consecutive sub-agent runs as one batch |
| `Dispatch.OverlapNeedsRuns` | internal/agent/execute.go:1274-1277 | executors that may overlap are sub-agent runs with nothing else between them |
| `ToolCache.KeyInjective` | internal/app/session/session.go:3927-3940 | two tools without a bar in their names share a key only for the same tool and arguments |
| `ToolCache.TrimmedIsLongest` | internal/app/session/session.go:3949-3962 | eviction leaves the longest suffix within the bounds and never drops the newest |
| `ToolCache.StoredGood` | internal/app/session/session.go:3935-3947 | after a set the key holds its result, every other survivor is unchanged, and order and entries agree |
| `ToolCache.Session.Evict` | internal/app/session/session.go:3949-3962 | the loop leaves exactly that suffix with its entries unchanged |
| `ToolCache.Session.Set` | internal/app/session/session.go:3935-3947 | the fields become exactly the stored cache: the key newest, the longest suffix within the bounds, the byte count consistent |
| `ToolCache.Session.Lookup` | internal/agent/execute.go:794-825 | a hit is served exactly for a cacheable read under a live Allow whose key is cached |
| `ToolCache.Session.Execute` | internal/agent/execute.go:789-1094 | one call's answer, cache and workspace, the cache cleared only by a successful write |
| `ToolCache.Session.ExecuteAll` | internal/agent/execute.go:789-825 | a sequential run's answers, cache and workspace |
| `ToolCache.AnswerDiffersExactly` | internal/agent/execute.go:808-825 | a call is answered otherwise than without a cache if and only if it is served and a later gate or its handler would have refused it or the entry is out of date |
| `ToolCache.StepCoherentExactly` | internal/agent/execute.go:1006-1094 | a call keeps the cache coherent if and only if it is not a failed write that changed what a cached tool reads |
| `ToolCache.CoherentExactly` | internal/agent/execute.go:1006-1094 | the cache is coherent throughout a run if and only if each failed write of the run goes unnoticed by what was cached then |
| `ToolCache.RunDiffersExactly` | internal/agent/execute.go:789-825 | over such a run a call differs from the uncached one if and only if it is served an entry its later gates or handler would have refused, and every hit is what a fresh run would return |
| `ToolCache.HitHasSource` | internal/agent/execute.go:1086-1094 | every entry comes from an earlier successful read of its key with no successful write since, and is that read's result |
| `ToolCache.HitSkipsGates` | internal/agent/execute.go:808-825 | a run in which a read its gates refuse is answered from the cache |
| `ToolCache.FailedWriteServesStale` | internal/agent/execute.go:1006-1066 | a run in which a failed write's effect makes a hit stale |
| `ToolCache.OnlyAllowedReadsHit` | internal/agent/execute.go:794-825 | a cacheable read the rules allow now is answered from its entry when there is one, and every other call as without a cache |
| `ToolCache.StoppedYetAnswered` | internal/agent/execute.go:794-825 | over any run a call the rules or a gate stopped but that was answered is a cacheable read under an Allow, answered with an earlier successful read of its key |
| `ToolCache.ReadIsCached` | internal/agent/execute.go:1086-1094 | a successful cacheable read, allowed or confirmed, is answered from the cache when it comes again; a successful write empties the cache; nothing else changes it |
| `ToolCache.StoredLast` | internal/app/session/session.go:3935-3947 | the newest entry is last and the survivors keep their order |
| `ToolCache.FitsExactly` | internal/app/session/session.go:3949-3962 | the bounds are 64 entries and 2 MiB, the newest entry exempt from the second |
| `ToolCache.UncachedSays` | internal/agent/execute.go:1006-1066 | what a call does without a cache |
| `RetryLadder.Caller.Ladder` | internal/agent/chat.go:195-272 | at most maxRetries + 1 requests, exactly that many before a failure unless a hopeless error, a spent reconnect budget, steering or a cut wait ended it; the doubling backoffs between them and no others; nothing after a hopeless error; success is the last request's text, a failure the longest fragment; a first hiccup is followed by 50 ms and a second request that decides when accepted, a first dropped connection by one second and a resend; classification only of the ladder's own errors; a negative maxRetries sends nothing and succeeds |
| `RetryLadder.Caller.Rung` | internal/agent/chat.go:203-258 | one attempt and its reconnect wait: what each kind of first reply leads to, and the reason for every end |
| `RetryLadder.Caller.WaitForConnectivity` | internal/agent/chat.go:379-443 | the wait lasts at most its budget plus one backoff, its sleeps are the backoffs one before each resend, and it ends only with an answer, an interruption, a cut wait or its budget spent |
| `RetryLadder.Caller.Rest` | internal/agent/chat.go:45-56 | the wait before a resend is the next backoff, and one cut short is the last |
| `RetryLadder.Caller.Resend` | internal/agent/chat.go:410-441 | a resend is bounded by what is left of the budget |
| `RetryLadder.Caller.ChatOnce` | internal/agent/chat.go:775-789 | only a thinking loop is resent, exactly once and within the same time bound, and a second one returns no text |
| `RetryLadder.Caller.Pause` | internal/agent/chat.go:251-270 | backoff between rungs only, doubled each time |
| `RetryLadder.LongestCovers` | internal/agent/chat.go:217-219 | the salvage measure covers every fragment |
| `RetryLadder.HopelessIsLast` | internal/agent/chat.go:535-552 | an error neither eligible nor retryable is the last thing that happens |
| `RetryLadder.Caller.Climb` | internal/agent/chat.go:203-270 | a rung and the backoff after it: exactly 50 ms doubled after a hiccup when more rungs remain |
| `RetryLadder.Caller.Ask` | internal/agent/chat.go:203-219 | a rung's own request: accepted, interrupted exactly for the user's signal or a cut connection while steering, or an error to judge |
| `RetryLadder.Caller.Reconnect` | internal/agent/chat.go:231-246 | the wait after a dropped connection and which of its ends stop the call |
| `RetryLadder.Caller.Round` | internal/agent/chat.go:388-441 | one round of the wait: cut short, over budget right after the backoff, or a resend |
| `RetryLadder.LongestIsOne` | internal/agent/chat.go:217-219 | the salvage is one of the fragments, unaltered |
| `RetryLadder.NapsDouble` | internal/agent/chat.go:261-262 | the backoffs of n pauses add up to 50 * (2^n - 1) ms |
| `RetryLadder.BackoffTable` | internal/agent/chat.go:45-56 | the reconnect waits are 1, 2, 5 and then always 10 seconds |
| `StreamFold.Fold` | internal/agent/chat.go:949-1135 | the loop computes the response of the first stop, and what reaches the usage observers |
| `StreamFold.FirstStop` | internal/agent/chat.go:950-1063 | the stop is the first event that halts reading |
| `StreamFold.CompleteExactly` | internal/agent/chat.go:1064-1135 | a response is accepted if and only if nothing halted it, and is then every text in order with the last completion's calls |
| `StreamFold.NothingAfterStop` | internal/agent/chat.go:952-979 | after an abort or a failure no later event changes the response |
| `StreamFold.SteeringKeepsUsage` | internal/agent/chat.go:965-979 | a steering abort loses the usage if and only if nothing before or after it reported any |
| `StreamFold.CompletionKeepsUsage` | internal/agent/chat.go:1050-1053 | outside an abort the last usage any completion reported is left if and only if the last completion reported one or none did |
| `StreamFold.AcceptedNilWipes` | internal/agent/chat.go:1050-1053 | a stream whose accepted completion without usage wipes an earlier report |
| `StreamFold.FailureKeepsWhatCame` | internal/agent/chat.go:1016-1032 | a stream that fails at an event returns, as partial, what a stream ending there would have been accepted with |
| `StreamFold.BoundKeepsWhatCame` | internal/agent/chat.go:1064-1135 | a watchdog or ceiling makes an accepted response partial and takes nothing from it |
| `StreamFold.SteeredIsSendNow` | internal/agent/chat.go:1064-1135 | the result is an interruption if and only if steering stopped the reading, or came while nothing else did |
| `StreamFold.HaltsExactly` | internal/agent/chat.go:950-1063 | which event halts the reading and why |
| `StreamFold.TextsJoin` | internal/agent/chat.go:1013-1015 | the text is the deltas in order |
| `StreamFold.OnlyTextCounts` | internal/agent/chat.go:981-1015 | only text deltas are text and only thinking deltas thought |
| `Budget.RunIsBounded` | internal/agent/budget.go:51-90 | any run with a positive base ends within 4 * base + 19 turns, base + 19 for a question |
| `Budget.BoundIsReached` | internal/agent/budget.go:78-90 | a run of exactly that many turns |
| `Budget.NoBaseNoBound` | internal/agent/budget.go:51-54 | without a positive base there are runs of any length |
| `Budget.StepKeeps` | internal/agent/budget.go:51-73 | the ceiling never falls and stays between base and four times base; only turns and questions add to the total |
| `Budget.RunKeeps` | internal/agent/budget.go:103-114 | the same over every run |
| `Budget.TurnBudget.GrantSteps` | internal/agent/budget.go:65-73 | the fields after a grant |
| `Budget.TurnBudget.ReclassifyAsOverhead` | internal/agent/budget.go:109-114 | one charge moves and the total stays |
| `Budget.TurnBudget.Charge` | internal/agent/budget.go:78-90 | a turn is charged exactly while nothing is exhausted |
| `Budget.TurnBudget.RemainingTools` | internal/agent/budget.go:94-99 | positive for a turn that may still be charged |
| `Budget.CeilingIsOfLongestPlan` | internal/agent/budget.go:51-73 | over every run the ceiling is that of the longest plan so far: 8 turns a step more, at most four times the base, the base alone for a question |
| `Budget.StepMoves` | internal/agent/budget.go:78-114 | which charge each step moves |
| `Budget.ReasonExactly` | internal/agent/budget.go:78-90 | the overhead cap is named first, then a positive ceiling reached |
| `Finalize.Finalizer.Conclude` | internal/agent/finalize.go:79-180 | one to three requests, each paired and after the directive; the recorded summary is not blank and is the first concluding response's content or the fallback; steering owed a delivery takes it back |
| `Finalize.Finalizer.AskUntilAnswered` | internal/agent/finalize.go:87-161 | exactly the requests due are sent in order; the loop stops at the first response that concludes, at an error, or after three |
| `Finalize.Finalizer.Correct` | internal/agent/finalize.go:101-160 | what follows a response that did not conclude: its refused calls answered, then the correction or warning, before another attempt |
| `Finalize.RefusedStaysPaired` | internal/agent/finalize.go:103-114 | answering each refused call once keeps a paired history paired |
| `Finalize.FallbackSaysSomething` | internal/agent/finalize.go:216-247 | the fallback is never blank |
| `Finalize.TrimBlank` | internal/agent/finalize.go:127-130 | trimming leaves nothing if and only if the text was blank |
| `Finalize.EachPaired` | internal/agent/finalize.go:79-161 | every request is paired, starts with the given history and the directive, and ends with a message of the system's |
| `Finalize.RepliesAnswer` | internal/agent/finalize.go:106-114 | each refused call has its own tool message, in order |
| `Finalize.ConcludesExactly` | internal/agent/finalize.go:97-148 | a native response concludes if and only if it calls no tool and is not blank, with its trimmed text; an envelope as it parses |
| `Finalize.AnswerExactly` | internal/agent/finalize.go:160-164 | the summary is the concluding content, or the fallback when there is none or it is blank |
| `Finalize.FallbackHoldsPlan` | internal/agent/finalize.go:216-247 | the fallback opens with its reason and holds every step of the plan |
| `Finalize.FallbackHoldsProse` | internal/agent/finalize.go:241-247 | and the readable prose of the last output |
| `Finalize.TrimIs` | internal/agent/finalize.go:127-130 | trimming takes space from the two ends and nothing else |
| `ReasoningTrim.TrimReplayedReasoning` | internal/agent/reasoning_trim.go:9-31 | on a copy, the oldest eligible messages are cleared, every shorter prefix was over, and the result fits or nothing eligible remains |
| `ReasoningTrim.NewestKept` | internal/agent/reasoning_trim.go:10-16 | the newest assistant message keeps its reasoning and nothing but reasoning changes |
| `ReasoningTrim.EstimateTokens` | internal/agent/compact.go:14-32 | the nested loops compute the estimate |
| `ReasoningTrim.EstimateFalls` | internal/agent/compact.go:14-32 | trimming more never raises the estimate |
| `ReasoningTrim.TrimToBudget` | internal/agent/reasoning_trim.go:20-29 | with the estimate as the test, within budget or nothing left to clear, by the shortest prefix |
| `ReasoningTrim.EligibleExactly` | internal/agent/reasoning_trim.go:10-24 | what may be trimmed: an assistant message's reasoning when a later assistant message follows |
| `ReasoningTrim.OldestFirst` | internal/agent/reasoning_trim.go:17-29 | a trimmed message has every older eligible one trimmed too, and one trim more takes only the oldest left |
| `ReasoningTrim.TrimsAll` | internal/agent/reasoning_trim.go:17-29 | no trims change nothing and as many as there are clear everything eligible |
| `ReasoningTrim.EveryPartCounts` | internal/agent/compact.go:14-32 | each part of a message adds its own length to the estimate |
| `ReasoningTrim.HistoryAdds` | internal/agent/compact.go:14-32 | a history's estimate is a quarter of its messages' runes, rounded down |
| `Usage.ReportsRise` | internal/acp/turn.go:1469-1500 | however calls overlap, reported ids rise strictly, and the report is an unbroken prefix of the table if and only if no pass faced more than 200 new rows |
| `Usage.RunKeeps` | internal/acp/turn.go:1469-1500 | what was reported is never taken back |
| `Usage.PassIsComplete` | internal/db/turnmetrics.go:241-263 | one pass reports every row above the mark if and only if at most 200 are |
| `Usage.CollectNew` | internal/acp/turn.go:1480-1497 | the loop from the oldest row reports each row above everything reported so far and returns the new mark |
| `Usage.Telemetry.NewUsageRows` | internal/acp/turn.go:1469-1500 | the new rows oldest first, and only this session's mark moves, or nothing on a failed query |
| `Usage.Telemetry.DropRun` | internal/acp/rundetail.go:394-403 | only this session's mark is forgotten |
| `Usage.SeenIsReported` | internal/acp/turn.go:1469-1500 | while nothing was lost, a call's pass completes the report of every row its query saw and repeats none |
| `Usage.QuerySees` | internal/acp/turn.go:1469-1480 | a query sees the whole table of its moment until it collects |

## Left out

- JSON text: an encoding is an injective function and decoding its inverse; malformed frames are one case. Write and encode failures of a response are not modelled.
- Clocks are counters; timers, tickers and the barrier's bound are labels or `World` answers that may come at any time.
- Subagent stacks: child projectors flush unconditionally; their map, unsubscription and final flag are not modelled, and a projector that was deleted and made again is a new run.
- The barrier keeps one buffer a forwarder, and publishes a state change together with its event.
- A second turn manager over the same session state: slots, stops and forwarders are per manager, as the source's are.
- Slots without session state, whose stop is skipped.
- The text of errors, prompts, corrections, fallbacks, status labels and audit events.
- The rules of the policy engine, shell analysis and the effect of a command: `World.rules` may answer anything. The native command service's own admission of a shell proof is outside.
- A user edit is not checked against the tool's schema again, so schema coverage is stated only for unedited calls.
- The fingerprint of a policy call is the call itself.
- The skill-load gate, pre-write snapshots and the write gate's queue, beyond their power to stop a call.
- Thinking-loop detection is a predicate of the thinking so far.
- Overflow of the retry backoff's shift for more retries than a clock can hold.
- Network error recognition, provider error bodies, capability gates and request building.
- Provider retries inside one logical finalize request.
- Cacheable tools are taken to be read-only, and tool names to hold no `|`, which the cache key uses.
- `CloseAll` tears sessions down in some order; the source sorts their ids.
- The task loop, plan and step parsing, compaction of history, and everything that calls files, git, a database, HTTP, a keyring or a terminal.
