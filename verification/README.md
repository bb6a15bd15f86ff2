# Verified model of the plugin protocols

This project models the six files in which the plugin SDK keeps its protocol logic, and proves what they
guarantee in every run:

* the duplex peer (`pluginapi/special/peer.go`): one state machine whose atomic steps are the critical
  sections and channel operations of callers, handlers, reader, writer and `Close`; the object `Peer` whose
  methods are proved to be those steps; two peers joined by FIFO links;
* the lifecycle server (`pluginapi/special/server.go`): the handler closure as a serial function, as an object
  that assigns its captured variables, and under concurrent invocations; then behind the joined peers;
* the capability server (`pluginapi/server.go`): dispatcher, workers, semaphore, cancel registry, ledger and
  draining shutdown, again as a state machine and as an object;
* chunked transfers (`pluginapi/special/runtime.go`) against an arbitrary host, and over a store that keeps its side;
* frames (`pluginapi/frame.go`) under short writes, and the output stream that several goroutines share;
* Semantic Versioning 2.0.0 (`internal/semver/semver.go`): the recogniser and the order.

`dafny verify dfyconfig.toml` checks everything.

## How to read it

| file | contents |
|---|---|
| `Basics.dfy`, `Envelope.dfy`, `Numerals.dfy` | messages, outcomes, identifiers, digit strings |
| `PeerModel.dfy`, `PeerInvariants.dfy`, `PeerRuns.dfy` | one peer with an arbitrary other side |
| `PeerHistory.dfy`, `PeerClosing.dfy` | what its state says about its past, and what closes it |
| `Exchange.dfy`, `Duplex.dfy`, `DuplexRuns.dfy` | the exactly-once protocol, two joined peers, their runs |
| `CallContents.dfy`, `HonestMessages.dfy` | what travels between them, and which of it closes a peer |
| `Peer.dfy` | the peer as an object |
| `SerialHost.dfy`, `SlotOverflow.dfy` | a host that makes one call at a time, and how many calls the slots allow |
| `Lifecycle.dfy`, `LifecycleAnswers.dfy`, `LifecycleGate.dfy`, `LifecycleHandler.dfy`, `ServedPlugin.dfy`, `ServedReplies.dfy` | the lifecycle handler: serial, its answers, concurrent, as an object, and end to end |
| `CapabilityModel.dfy`, `CapabilityRuns.dfy`, `CapabilityServer.dfy` | the capability server |
| `CapabilityHistory.dfy`, `CapabilityEndings.dfy` | what it does for each request, and how its loop ends |
| `Frame.dfy`, `OutputStream.dfy`, `CapabilityOutput.dfy` | frames, the shared output, and the server together with it |
| `Transfer.dfy`, `Upload.dfy`, `ReferenceStore.dfy` | the two transfers and their round trip |
| `Text.dfy`, `SemVer.dfy`, `Precedence.dfy` | versions |

A step relation comes as `Enabled` and `Next`; a run is any sequence of enabled steps, so scheduling, the choice
among ready `select` cases, timeouts, context cancellation and broken streams are all arbitrary.

## What does not hold as stated

Some properties that one would expect are false of the code. Each has a witness and its exact or guarded form.

* `Close` does not cancel every handler: the reader may hold a request when the sweep ends
  (`CloseMayMissOne`). At most one handler escapes (`SweepLeavesOne`); in a run one does if and only if a dispatch
  after the sweep finds its request admissible (`LateHandlerIff`), hence none if the reader holds nothing at the
  sweep (`NoLateHandler`). Reads on a closed stream are taken to fail.
* Bounding the calls outstanding does not protect the slots, because a reply is queued before its slot is freed:
  a host that waits for every reply can lose the connection with its ninth call (`NinthCallRefused`). At most
  eight calls in all are safe in every run (`EightCallsFit`), and nine is the exact number (`OverflowFromNine`).
* "Cleanup implies Prepare" is false (`CleanupWithoutPrepare`); it holds if and only if the first prepare or
  cleanup request that decodes and names a run is not a cleanup (`CleanupsPreparedIff`). The documentation only
  promises Cleanup after a failed Prepare (`docs/special-protocol.md`, line 9).
* A host that makes one call at a time can be told "lifecycle busy", if and only if it goes on after a sent call
  that ended unanswered because its peer closed (`NeverBusyIff`). The error that `Call` returns does not tell an
  acknowledged cancel from an unanswered one, but seeing the peer not done at any moment after the return does
  (`NeverBusyIfLooking`).
* A handler error with empty text closes the connection (`ReplyAcceptedIff`).
* Identifiers repeat after 2^64 calls (`CallIdsEqualIff`); theorems about joined peers carry the condition
  `Unwrapped`, fewer calls than that.
* The 32-bit frame length is lossless exactly for payloads below 2^32 bytes (`RoundTripIff`), so `maxBytes` must
  be below that.
* Whole frames in the output need a writer that accepts nothing after a partial failure (`SpoiledIff`); a
  worker ignores its write error and the next response is written all the same (`TornFrameMisleads`).
* A cancel is not always processed: the capability dispatcher reads nothing while it waits for the semaphore.
  `BlockedIff` says exactly when that is. Counting responses does not avoid it, because a response is written
  before its token is given back: the exact number of accepted executes is the limit (`BlocksFromLimit`).

## Model

| member | source | states |
|---|---|---|
| `Envelope.CallIdsEqualIff` | pluginapi/special/peer.go:84 | Two calls of one peer have the same identifier if and only if their numbers agree modulo 2^64: distinct until the uint64 counter wraps, repeated from then on |
| `Envelope.ReplyAcceptedIff` | pluginapi/special/peer.go:213-221 | The other side accepts the reply of a handler exactly when it carries a payload or a non-empty error text; a handler error with text "" is refused |
| `PeerInvariants.HandlerInvNext` | pluginapi/special/peer.go:157-198 | Every step of a peer, with any message arriving, keeps the handler side: tokens in `slots` are the handlers that have not released theirs, `active` maps each identifier to the one handler that will remove it, a handler past its send queued its reply or the peer is closed, and what the close sweep covers |
| `PeerInvariants.CallInvNext` | pluginapi/special/peer.go:84-125 | Every step keeps the caller side until the serial wraps: `pending` holds exactly the calls between registration and return and at most 32 of them, identifiers name calls one to one, a call that has ended after its request was queued took a reply or the peer is closed |
| `PeerInvariants.PeerInvNext` | pluginapi/special/peer.go:43-227 | Every step keeps both sides: the handler side always, the caller side while the serial has not wrapped |
| `PeerRuns.SlotsConserved` | pluginapi/special/peer.go:185-198 | In every reachable state, closing included: at most 8 tokens are out, `active` has no more entries than that, and the tokens are the accepted requests not yet answered plus the handlers still unwinding |
| `PeerRuns.ForgetRemovesOwn` | pluginapi/special/peer.go:198 | The deferred clean-up of a handler deletes its own entry of `active` and changes no other |
| `PeerRuns.ReleasedOnce` | pluginapi/special/peer.go:198 | In any run, after a handler has released its token no later event is that handler's: each token is released once |
| `PeerRuns.SweepLeavesOne` | pluginapi/special/peer.go:50-61 | After the sweep of `Close` at most one handler that may still run has not been cancelled |
| `PeerRuns.NoLateHandler` | pluginapi/special/peer.go:157-194 | If the reader holds no message when the sweep is over, then in every later state each handler that may still run has been cancelled |
| `PeerRuns.LateHandlerIff` | pluginapi/special/peer.go:50-61 | In any run with a sweep: some later state has a handler that may still run and was never cancelled, if and only if a later dispatch finds the request it holds admissible |
| `PeerRuns.CloseMayMissOne` | pluginapi/special/peer.go:50-61 | A reachable state in which the sweep is over and one handler runs uncancelled: `Close` does not cancel every handler |
| `PeerRuns.OverflowIff` | pluginapi/special/peer.go:185-190 | With an arbitrary other side, a proper new request closes the connection for want of a slot if and only if unanswered plus unwinding handlers number exactly 8 |
| `PeerHistory.DispatchDecides` | pluginapi/special/peer.go:147-194 | One dispatch in every case, for any message: a foreign or malformed envelope, a repeated active identifier, a missing method or deadline, or want of a slot stops the reader and changes nothing else; a reply goes to the call waiting for it or nowhere; a cancel cancels its handler alone; a request gets a handler, an entry and a token |
| `PeerHistory.ViolationCloses` | pluginapi/special/peer.go:141-156 | In every run, whatever the other side sends: a message of another version or instance, without an identifier, or otherwise in violation stops the reader and closes the peer, and leaves calls and handlers as they were; no other message stops the reader |
| `PeerHistory.StoppedIsClosed` | pluginapi/special/peer.go:127-141 | In every run a reader or writer that has stopped, or a call or handler inside `Close`, means that the peer is closed |
| `PeerHistory.EndedIff` | pluginapi/special/peer.go:86-124 | In every run a call has ended in a given way - refused, unsent, with a reply, with the peer done, acknowledged, given up - exactly if a step of its own ended it so, under the condition that the code asks for |
| `PeerHistory.FiredIff` | pluginapi/special/peer.go:54-58 | In every run a handler has been cancelled exactly by a cancel that named its request while it was active, by the sweep of `Close` while it was active, or by its own clean-up |
| `PeerHistory.RunsOn` | pluginapi/special/peer.go:62-226 | In every run no call, handler, reader or writer is stuck: each can take the step that its position asks for, or waits for the stream, or is inside a `Close` that itself goes on |
| `PeerClosing.ClosedIff` | pluginapi/special/peer.go:50-60 | In every run a peer is closed exactly if an earlier step was one of: `Close`, a failed read or write, a violating message, a second reply to one call, a cancel or reply that could not be queued, an acknowledgement that did not come |
| `PeerClosing.StagesAdvance` | pluginapi/special/peer.go:50-60 | In every run the stages only advance: open, done, stream closed, swept |
| `PeerClosing.NoTrafficAfter` | pluginapi/special/peer.go:53 | Once the stream has been closed nothing is read from it or written to it |
| `PeerClosing.CloseReturnsAfterSweep` | pluginapi/special/peer.go:50-61 | Whoever is inside `Close`, a call or a handler, comes out of it only after the sweep |
| `PeerClosing.StoppedIff` | pluginapi/special/peer.go:127-169 | In every run the reader has stopped exactly after a failed read, a violating message or a second reply to one call, and the writer exactly after a failed write or after it found `done` closed |
| `PeerClosing.QueueBound` | pluginapi/special/peer.go:62-72 | In every run at most 32 messages wait for the writer |
| `SlotOverflow.EightCallsFit` | pluginapi/special/peer.go:185-190 | In every reachable state of the joined peers: while one side has made at most 8 calls in all, the other never refuses a request of its for want of a slot |
| `SlotOverflow.NinthCallRefused` | pluginapi/special/peer.go:198-226 | A reachable state in which the host made its calls one at a time, took all eight replies, and its ninth request is refused: a reply is queued before its slot is freed |
| `SlotOverflow.OverflowFromNine` | pluginapi/special/peer.go:185-198 | For a host that starts each call only after the one before returned with its reply: within n calls a refusal for want of a slot is reachable if and only if n >= 9 |
| `Exchange.SendRequest` | pluginapi/special/peer.go:98 | The request of a call joins the traffic once; every property of the exchange is kept |
| `Exchange.SendCancel` | pluginapi/special/peer.go:115 | A cancel queued after its request keeps every cancel in the traffic behind its request, or its request admitted |
| `Exchange.Deliver` | pluginapi/special/peer.go:158-168 | Handing the head reply to its call finds the channel empty and is that call's one answer |
| `Exchange.Admit` | pluginapi/special/peer.go:191-194 | Admitting the head request runs it for the first time, and every reply still matches |
| `Exchange.Queue` | pluginapi/special/peer.go:224 | A queued response joins the traffic once and answers the request it was computed for |
| `DuplexRuns.ReachableInv` | pluginapi/special/peer.go:43-227 | In every state that two joined peers reach, by any interleaving, both directions are exactly-once exchanges and both peers keep their own accounting |
| `DuplexRuns.RepliesMatch` | pluginapi/special/peer.go:213-226 | A reply that a call took is the response computed for that very request, by the only handler that ever ran it, which has left its function |
| `DuplexRuns.TakenOnce` | pluginapi/special/peer.go:101-124 | A call takes at most one reply in a whole run |
| `DuplexRuns.ReaderBranches` | pluginapi/special/peer.go:158-180 | Between honest peers the reader never finds a full reply channel or an identifier already active, and while its peer is open never an unknown reply identifier |
| `DuplexRuns.SettledOrClosed` | pluginapi/special/peer.go:86-125 | While a peer is open every sent and unanswered call is in `pending`, at most 32 of them; a call that ended after its request was queued took a reply, or the peer is closed |
| `DuplexRuns.NoLostCancel` | pluginapi/special/peer.go:170-176 | When a reader processes a cancel, the request was accepted before; and its cancel function fires, or its reply is already queued, or this peer is closed |
| `CallContents.IssuedBy` | pluginapi/special/peer.go:84-98 | In every run the k-th call of a side was made by one step, and its request carries exactly the method, deadline and payload of that step, no error, this instance and version, and the identifier of its number |
| `CallContents.FinishedBy` | pluginapi/special/peer.go:197-221 | In every run a handler that has a response came to its end in one step, and the response carries that: the payload of a value, the text of an error, "special: handler panic: " with the detail of a panic |
| `CallContents.HandlerGetsCall` | pluginapi/special/peer.go:98-126 | In every run of two joined peers the handler that runs the request of a call is given exactly the method, deadline and payload that the call was made with |
| `CallContents.TakenTells` | pluginapi/special/peer.go:101-119 | In every run of two joined peers a reply that a call took tells exactly what the one handler that ran that request came to, in one step before |
| `CallContents.CallReturns` | pluginapi/special/peer.go:101-109 | In every run of two joined peers a call that ended with a reply returns payload v exactly when the one handler that ran it came to value v, and error t exactly when that handler failed with t, panicked with what t tells, or had a value that could not be encoded |
| `HonestMessages.HonestCancel` | pluginapi/special/peer.go:115 | Between two such peers no cancel ever closes the other side |
| `HonestMessages.HonestReply` | pluginapi/special/peer.go:213-224 | Between two such peers a reply closes the other side exactly when its handler came to empty text |
| `HonestMessages.HonestRequest` | pluginapi/special/peer.go:147-190 | Between two such peers a request closes the other side exactly when its call named no method or "cancel", gave no deadline, or finds every slot taken |
| `PeerObject.Peer.constructor` | pluginapi/special/peer.go:43-48 | The initial state of a peer, which is valid |
| `PeerObject.Peer.Guarantees` | pluginapi/special/peer.go:43-48 | A valid peer has at most 8 tokens out, no more entries in `active` than tokens, each under its own request's identifier, and at most 32 pending calls; every method below keeps it valid |
| `PeerObject.Peer.Draw` | pluginapi/special/peer.go:84-85 | A call with the next uint64 serial and an empty reply channel, whose request has exactly the given method, deadline and payload, no error, this instance and version; one `Issue` step |
| `PeerObject.Peer.Register` | pluginapi/special/peer.go:86-92 | Registers the call unless 32 are pending; succeeds exactly then |
| `PeerObject.Peer.SendRequest` | pluginapi/special/peer.go:98-100 | The request enters `out`, or the call ends unsent |
| `PeerObject.Peer.AwaitReply` | pluginapi/special/peer.go:101-114 | Of the first select the scheduled case: reply taken - and then the error in it is returned, or its payload for decoding -, peer done, or context over |
| `PeerObject.Peer.SendCancel` | pluginapi/special/peer.go:115-117 | A cancel with the identifier of the call, without deadline, payload or error, enters `out`, or the call enters `Close` |
| `PeerObject.Peer.AwaitAck` | pluginapi/special/peer.go:118-123 | Of the second select the scheduled case: acknowledged, done, or, after the timeout, the call enters `Close` |
| `PeerObject.Peer.CloseReturns` | pluginapi/special/peer.go:50-61 | `Close` returns to a call that closed the peer, not before stream and sweep are done |
| `PeerObject.Peer.Unregister` | pluginapi/special/peer.go:93 | The deferred removal from `pending` |
| `PeerObject.Peer.WriterSelect` | pluginapi/special/peer.go:127-132 | The writer quits when done, or takes the oldest message |
| `PeerObject.Peer.WriteOne` | pluginapi/special/peer.go:133-136 | A frame written, or a failure that closes the peer |
| `PeerObject.Peer.ReadFrame` | pluginapi/special/peer.go:143-146 | A message received, or the reader stops and closes |
| `PeerObject.Peer.Dispatch` | pluginapi/special/peer.go:147-190 | The envelope checks and the critical section of the reader, branch by branch |
| `PeerObject.Peer.Deliver` | pluginapi/special/peer.go:161-167 | The non-blocking send on the reply channel: delivered, or the connection is closed |
| `PeerObject.Peer.Spawn` | pluginapi/special/peer.go:194 | The handler goroutine starts |
| `PeerObject.Peer.Finish` | pluginapi/special/peer.go:199-221 | The response carries what the handler came to: the payload of a value, the text of an error, the detail of a recovered panic |
| `PeerObject.Peer.SendReply` | pluginapi/special/peer.go:222-226 | The response enters `out`, or the handler goroutine enters `Close` |
| `PeerObject.Peer.CloseOver` | pluginapi/special/peer.go:225 | `Close` returns to the handler goroutine, not before stream and sweep are done |
| `PeerObject.Peer.Forget` | pluginapi/special/peer.go:198 | The context is cancelled and the own entry of `active` removed |
| `PeerObject.Peer.Release` | pluginapi/special/peer.go:198 | The token is given back |
| `PeerObject.Peer.CloseDone` | pluginapi/special/peer.go:52 | `done` is closed, once |
| `PeerObject.Peer.CloseStream` | pluginapi/special/peer.go:53 | The stream is closed after `done` |
| `PeerObject.Peer.FireActive` | pluginapi/special/peer.go:54-58 | The loop over `active` calls exactly the cancel functions in it |
| `PeerObject.Peer.Sweep` | pluginapi/special/peer.go:54-58 | The sweep as one step of the state |
| `Lifecycle.ServeStep` | pluginapi/special/server.go:95-179 | One invocation, with any end of the provider call, extends an allowed trace by a letter that may follow it or not at all, and leaves the state that the trace describes |
| `Lifecycle.TraceLanguage` | pluginapi/special/server.go:119-175 | The provider-call traces that serial invocations produce are exactly the allowed ones: at most one Prepare; Run only after a Prepare that returned ok, with its run ID and compiled input; units 1, 2, ..., k with k <= max(Units, 1); no Run after one that panicked; nothing but Cleanup after a Cleanup began, and nothing after one that succeeded |
| `Lifecycle.SerialTrace` | pluginapi/special/server.go:119-175 | State, last unit and frozen run after any serial execution are those of its trace |
| `Lifecycle.CleanupWithoutPrepare` | pluginapi/special/server.go:165-174 | Cleanup from "new" is accepted: "Cleanup implies Prepare" is false |
| `Lifecycle.CleanupsPreparedIff` | pluginapi/special/server.go:119-175 | Every Cleanup that reaches the provider has a Prepare before it if and only if the first prepare or cleanup request that decodes and names a run is not a cleanup |
| `LifecycleGate.Linearizable` | pluginapi/special/server.go:83-90 | Whatever the interleaving: with the gate free, state, provider trace and the winners' answers are those of running the winners one after the other in lock order |
| `LifecycleGate.LosersChangeNothing` | pluginapi/special/server.go:84-87 | Erasing every losing try from a history gives a history that ends in the same machine, but for the record of who lost |
| `LifecycleGate.VisibleTraces` | pluginapi/special/server.go:83-175 | The traces visible under any interleaving, a call in progress counting as not returned, are exactly the allowed ones |
| `LifecycleAnswers.AnswersTold` | pluginapi/special/server.go:91-192 | In every serial execution each round is answered as the provider calls before it and the end of its own one say: a round that adds a call is answered with a value exactly if it returned ok ("null" for Prepare and Cleanup, the own value of a Run), with the own error text exactly if it failed, as a panic exactly if it did not return; of the phase rounds that add none exactly a well-identified Cleanup on a cleaned run gets a value, every other the error of its first failed check |
| `LifecycleAnswers.UnderstoodTold` | pluginapi/special/server.go:91-192 | The same by the ten methods and what each makes of its payload, and for an unknown method |
| `LifecycleAnswers.ProviderGetsRequest` | pluginapi/special/server.go:119-171 | A phase of the provider is called only for its own method and with exactly the request that was decoded |
| `LifecycleGate.WinnersAnswered` | pluginapi/special/server.go:83-90 | Whatever the interleaving: every winner of the gate is answered so, with the winners in lock order as the rounds |
| `LifecycleGate.ProviderGetsOwn` | pluginapi/special/server.go:119-171 | Whatever the interleaving: the provider call in progress is for the request of the handler that holds the gate |
| `LifecycleHandler.Handler.constructor` | pluginapi/special/server.go:77-80 | A fresh handler with the gate free |
| `LifecycleHandler.Handler.TryLock` | pluginapi/special/server.go:84-86 | The lock is held afterwards, and won exactly if it was free |
| `LifecycleHandler.Handler.EnterPrepare` | pluginapi/special/server.go:136-141 | What Prepare checks and assigns before the provider runs |
| `LifecycleHandler.Handler.EnterRun` | pluginapi/special/server.go:149-162 | What Run checks and assigns before the provider runs |
| `LifecycleHandler.Handler.EnterCleanup` | pluginapi/special/server.go:165-169 | What Cleanup checks and assigns before the provider runs |
| `LifecycleHandler.Handler.EnterPhase` | pluginapi/special/server.go:119-134 | The run ID and frozen-identity checks, then the phase |
| `LifecycleHandler.Handler.Enter` | pluginapi/special/server.go:91-182 | The switch over methods up to the provider call |
| `LifecycleHandler.Handler.Resume` | pluginapi/special/server.go:142-174 | The assignment after the provider call; skipped by a panic |
| `LifecycleHandler.Handler.Handle` | pluginapi/special/server.go:83-182 | A loser changes nothing; a winner is answered as its method, its payload, the provider calls before it and the end of its own call say, does one round of the serial execution, gives the gate back, and keeps the captured variables those of an allowed trace |
| `ServedPlugin.NeverBusy` | pluginapi/special/peer.go:98-125 | A host that starts a lifecycle call only after every earlier one returned, each of those that was sent having taken a reply - cancelled or not, provider panics included - never makes a handler of the joined plugin fail with "lifecycle busy" |
| `ServedPlugin.NeverBusyIfLooking` | pluginapi/special/peer.go:49 | The same for a host that, at any moment after the last return and before the next call, has seen its peer not done |
| `ServedPlugin.NeverBusyIff` | pluginapi/special/peer.go:98-125 | For a host that makes one call at a time, whichever endings of earlier calls it is content with: no reachable state is busy if and only if it never goes on after a sent call that ended unanswered |
| `ServedPlugin.BusyAfterUnanswered` | pluginapi/special/peer.go:50-72 | If it does go on, for either unanswered ending, a busy state is reachable: between closing `done` and closing the stream the new call can still be queued, written and accepted while the handler of the abandoned one - cancelled, but not yet returned, when the call gave up on its acknowledgement - holds the gate |
| `ServedReplies.RepliesAreSerial` | pluginapi/special/peer.go:101-109 | For a host that goes on only after settled calls, every reply its call took is the answer that the serial execution of the lock winners gives to the round of that very request |
| `ServedReplies.RepliesExplained` | pluginapi/special/server.go:83-90 | For any host, with any number of calls in flight: a reply that a call took is that serial answer to its own round, or "lifecycle busy" because its own handler lost the gate |
| `ServedReplies.RepliesTellProvider` | pluginapi/special/server.go:91-192 | For a host that goes on only after settled calls: the reply that a call took carries an answer which, with what its round adds to the provider calls before it, is exactly what the method and payload of that call and the end of its own provider call say |
| `ServedReplies.ServedTraceAllowed` | pluginapi/special/server.go:119-175 | For any host: the provider calls seen behind the joined peers, one in progress included, form an allowed trace |
| `CapabilityRuns.ReachableInv` | pluginapi/server.go:34-208 | The accounting of registry, ledger, semaphore, log and shutdown holds in every reachable state |
| `CapabilityRuns.EnrollFindsFree` | pluginapi/server.go:115-119 | The registration of an execute always finds its identifier free: the duplicate branch is unreachable |
| `CapabilityRuns.ConcurrencyBound` | pluginapi/server.go:42-50 | Running executes never exceed the limit, which is in 1..64; tokens equal the live workers plus the dispatcher's own acquire; the semaphore is replaced only while no token is out; no worker is left once `Serve` has returned by any path |
| `CapabilityRuns.IdentifierLedger` | pluginapi/server.go:63-66 | `active` is a subset of `seen`; response identifiers are distinct and all were received |
| `CapabilityRuns.RefusedCancel` | pluginapi/server.go:128-136 | A cancel answered accepted=false for an execute accepted earlier implies that the `respond` of that execute has returned |
| `CapabilityRuns.ShutdownRunsAlone` | pluginapi/server.go:137-142 | `Handler.Shutdown` runs with no execute in progress, and between sweep and then every execute still running has had its context cancelled |
| `CapabilityRuns.DrainingShutdown` | pluginapi/server.go:137-146 | When `Serve` has returned after a shutdown and no response was lost: the shutdown response is the last frame, every accepted execute has exactly one response, before it, and nothing can be written any more |
| `CapabilityRuns.ShutdownEndsLog` | pluginapi/server.go:137-146 | In every run, whatever else was lost: a shutdown response that got out is the last response, every worker is gone by then, and nothing is written from then on |
| `CapabilityHistory.EverythingTold` | pluginapi/server.go:70-149 | In every run each response, logged or about to be, answers a request received before, with the body of its method - handshake, health, execute, cancel with its decoded target, shutdown - and with the flag that the return of that method's own handler reported for that identifier; each worker executes a received "execute" |
| `CapabilityHistory.RequestDecides` | pluginapi/server.go:60-78 | A request in every case: a foreign or incomplete envelope, a reused identifier, anything before the handshake, a second handshake, undecodable parameters or an unknown method ends `Serve`; any other is noted and leads to what its method asks for |
| `CapabilityHistory.ShutdownsAre` | pluginapi/server.go:137-142 | In every run the shutdowns on record are exactly the shutdown requests received and not rejected |
| `CapabilityHistory.CancelledIff` | pluginapi/server.go:177-208 | In every run the context of an execute has been cancelled exactly by a cancel that named it while it was registered, by a sweep while it was registered, or by its own clean-up |
| `CapabilityHistory.AcceptedCancel` | pluginapi/server.go:128-136 | In every run each cancel answered accepted=true, logged or about to be, names an execute accepted before it whose context has been cancelled |
| `CapabilityHistory.LookUpFinds` | pluginapi/server.go:187-195 | In every reachable state a cancel is answered accepted=true exactly when an accepted execute of that identifier is still registered |
| `CapabilityEndings.OpensWithResponse` | pluginapi/server.go:93-96 | In every run the handshake is done exactly if its positive response got out |
| `CapabilityEndings.OverIff` | pluginapi/server.go:53-149 | In every run the loop of `Serve` has ended exactly if an earlier step ended it: a rejected request, an end of input, an improper handshake result, an end of the context while waiting for a token, a lost response, a refused handshake or a shutdown |
| `CapabilityEndings.ReturnedIff` | pluginapi/server.go:47-50 | In every run `Serve` has returned exactly if it waited for its workers, and waits only after it called every cancel function |
| `CapabilityEndings.LimitIsOffered` | pluginapi/server.go:88-92 | In every run, once a proper handshake result has come in, the limit is the number it offered |
| `CapabilityEndings.LimitIsOne` | pluginapi/server.go:42-43 | In every run, before that, the limit is one |
| `CapabilityEndings.ServesOn` | pluginapi/server.go:52-150 | In every run neither dispatcher nor worker is stuck: each can take the step its position asks for, except that the dispatcher waits for a token while the limit is held, and for its workers to be gone |
| `CapabilityRuns.BlockedIff` | pluginapi/server.go:109-113 | A dispatcher that holds an execute can take no token if and only if as many workers as the limit hold one, hence never before as many executes as the limit were accepted; until then it can only give up |
| `CapabilityRuns.BlocksFromLimit` | pluginapi/server.go:109-127 | With every accepted execute answered and no response lost, a blocked dispatcher is reachable within n accepted executes if and only if n is at least the limit: a response is written before its token is given back |
| `CapabilityObject.CapabilityServer.constructor` | pluginapi/server.go:41-45 | The state on entry of `Serve`, which is valid |
| `CapabilityObject.CapabilityServer.Guarantees` | pluginapi/server.go:42-50 | A valid server runs no more executes than tokens, tokens than the limit, the limit than 64; its responses have distinct identifiers; and while none was lost the stream is exactly their frames. Every method below keeps it valid |
| `CapabilityObject.CapabilityServer.AddActive` | pluginapi/server.go:167-175 | Registers unless the identifier is taken, and says which |
| `CapabilityObject.CapabilityServer.RemoveActive` | pluginapi/server.go:177-185 | Removes the entry and calls the cancel function it held |
| `CapabilityObject.CapabilityServer.Cancel` | pluginapi/server.go:187-196 | Calls the cancel function of the identifier if there is one, and says so |
| `CapabilityObject.CapabilityServer.CancelAll` | pluginapi/server.go:198-208 | Calls exactly the registered cancel functions |
| `CapabilityObject.CapabilityServer.Respond` | pluginapi/server.go:153-165 | Written exactly as `WriteFrame` on the stream says: its frame is appended whole and logged, or it is lost; one that does not encode or fit leaves the stream alone |
| `CapabilityObject.CapabilityServer.Dispatch` | pluginapi/server.go:53-149 | The envelope, identifier and handshake checks and the switch, up to the first blocking operation |
| `CapabilityObject.CapabilityServer.Greet` | pluginapi/server.go:80-95 | The handshake result is checked and the semaphore replaced |
| `CapabilityObject.CapabilityServer.AcquireOrGiveUp` | pluginapi/server.go:109-113 | A token is taken, or the context ends the loop |
| `CapabilityObject.CapabilityServer.Enroll` | pluginapi/server.go:114-127 | The worker is registered and started; the duplicate branch is never taken |
| `CapabilityObject.CapabilityServer.LookUp` | pluginapi/server.go:133 | The cancel is looked up and fired |
| `CapabilityObject.CapabilityServer.Sweep` | pluginapi/server.go:47-50 | The sweep of a shutdown or of the deferred end |
| `CapabilityObject.CapabilityServer.Wait` | pluginapi/server.go:140 | `workers.Wait` returns with every worker gone |
| `CapabilityObject.CapabilityServer.HandlerReturns` | pluginapi/server.go:98-103 | Health or Shutdown returned, or no request could be read |
| `CapabilityObject.CapabilityServer.Answer` | pluginapi/server.go:143-146 | The response of the loop is written; a lost one or a shutdown ends the loop |
| `CapabilityObject.CapabilityServer.ExecuteReturns` | pluginapi/server.go:125 | `Execute` has returned |
| `CapabilityObject.CapabilityServer.WorkerResponds` | pluginapi/server.go:126 | The response of a worker is written or lost; the worker goes on either way |
| `CapabilityObject.CapabilityServer.WorkerUnwinds` | pluginapi/server.go:122-124 | The deferred calls in reverse order |
| `Frame.SizeOfHeader` | pluginapi/frame.go:27-28 | The header of a payload of n bytes denotes n modulo 2^32 |
| `Frame.HeaderBytes` | pluginapi/frame.go:27-28 | The four bytes of the header, most significant first, of the low 32 bits of the length |
| `Frame.HeaderOnly` | pluginapi/frame.go:28 | No other four bytes denote that length |
| `Frame.WriteAll` | pluginapi/frame.go:72-84 | What reaches the stream is a prefix of the value, all of it on success; it fails only after an error or a write without progress, and takes at most one call a byte |
| `Frame.WriteFrame` | pluginapi/frame.go:13-36 | Writes exactly one frame, or a prefix of it on a broken stream, or nothing for a value that cannot be encoded or is empty or too large |
| `Frame.ByteSource.ReadFull` | pluginapi/frame.go:46-56 | Exactly n bytes, or whatever was left and an error |
| `Frame.ReadFrame` | pluginapi/frame.go:38-70 | Returns what the head of the stream parses to, and consumes exactly 4 + n bytes of a whole frame |
| `Frame.RoundTripIff` | pluginapi/frame.go:24-56 | A sent frame is read back, with exactly its own bytes consumed and whatever follows it, if and only if its payload is shorter than 2^32 bytes |
| `Frame.SizeRefusedIff` | pluginapi/frame.go:45-52 | A stream of at least 4 bytes is refused for its size, after exactly 4 bytes, if and only if the header denotes 0 or more than the limit, 8 MiB by default |
| `Frame.AcceptedIsFrame` | pluginapi/frame.go:45-69 | Whatever is accepted is one whole frame: what was consumed is the frame of a payload of allowed size that decodes to the value returned |
| `Frame.PrefixRejected` | pluginapi/frame.go:45-56 | Every proper prefix of a frame is rejected |
| `Frame.StreamRecovered` | pluginapi/frame.go:38-70 | Repeated reading of concatenated frames followed by a proper prefix of one more gives the values in order and stops there |
| `OutputStream.WholeFrames` | pluginapi/server.go:162-164 | For every interleaving of dispatcher and workers and every way of cutting writes into pieces, in every state that is not spoiled, the output is the completed frames in lock order and a proper prefix of at most one more |
| `OutputStream.SpoiledIff` | pluginapi/frame.go:72-84 | The output is spoiled exactly when the writer took bytes after a frame was torn; a writer that accepts nothing after a partial failure never spoils it |
| `OutputStream.OutputRecovered` | pluginapi/frame.go:38-56 | Repeated `ReadFrame` on that output recovers exactly the completed responses in lock order |
| `OutputStream.TornFrameMisleads` | pluginapi/server.go:126 | A worker ignores its write error, so a run exists in which a frame follows a torn one and the reader gets a value nobody sent |
| `CapabilityOutput.OutputIsResponses` | pluginapi/server.go:153-165 | Server and stream together: reading the output back gives exactly the server's responses in the order of its log, for every interleaving and every cutting of writes, as long as none was lost |
| `CapabilityOutput.ShutdownIsLastFrame` | pluginapi/server.go:137-146 | After a draining shutdown that lost nothing, the bytes on the stream are exactly the responses, and the shutdown response is the last frame |
| `Transfer.ReadResourceTo` | pluginapi/special/runtime.go:70-99 | Against any host it ends within declared size + 1 reads, never writes more than the accepted receipt's size nor 256 MiB, succeeds exactly when the conversation is an intact resource that the destination takes, and what was written is given for every way it can end |
| `Transfer.IntactMeans` | pluginapi/special/runtime.go:74-98 | Intact, spelled out, both directions: each chunk begins where the data so far ends, is empty only at the end, stays within 256 MiB and the declared size, and repeats the first chunk's receipt, which is for this resource with a 64-character digest; only the last is marked as the end; size and digest of the data are those of the receipt |
| `Transfer.AsksInOrder` | pluginapi/special/runtime.go:75 | While every chunk is good, each read asks for this resource, from where the data so far ends, 256 KiB of it |
| `Transfer.IntactCarries` | pluginapi/special/runtime.go:81-94 | The receipt of an intact transfer is that of exactly the bytes carried |
| `Transfer.EqualReceiptsEqualBytes` | pluginapi/special/runtime.go:81-94 | Two successful transfers with equal receipts, over any hosts, carry equal bytes unless the digest collides on them |
| `Upload.PutResource` | pluginapi/special/runtime.go:102-121 | Succeeds exactly when the data is at most 256 MiB, the host answers the whole plan, and the last answer is the receipt of exactly this data; otherwise which error, and what was sent |
| `Upload.PlanPartitions` | pluginapi/special/runtime.go:106-108 | The requests are consecutive chunks that put together are the data, each of 256 KiB but the last, none empty unless all the data is; exactly the last one commits |
| `ReferenceStore.StoreAccepts` | pluginapi/special/runtime.go:102-121 | A store that accepts only contiguous chunks and one final commit accepts every upload, and then holds exactly the data |
| `ReferenceStore.RoundTrip` | pluginapi/special/runtime.go:70-121 | Upload then download is the identity for every length up to 256 MiB, 0 and exact multiples of the chunk size included, however the store cuts its replies |
| `ReferenceStore.UploadThenDownload` | pluginapi/special/runtime.go:70-121 | The two loops themselves, one after the other over that store, give the data back; larger data is refused |
| `ReferenceStore.ReceiptNamesBytes` | pluginapi/special/runtime.go:112-117 | A stored upload and an intact download with the same receipt carry the same bytes unless the digest collides on them |
| `SemVer.Numeric` | internal/semver/semver.go:118-128 | True exactly for a non-empty string of decimal digits |
| `SemVer.IdentifierChars` | internal/semver/semver.go:103-111 | True exactly when every character is an ASCII letter, digit or hyphen |
| `SemVer.ValidIdentifiers` | internal/semver/semver.go:98-116 | True exactly for dot-separated non-empty identifiers, for a pre-release without leading zeros in numbers |
| `SemVer.ListsAdmit` | internal/semver/semver.go:98-116 | What the lists admit, spelled out: non-empty parts of ASCII letters, digits and hyphens; in a pre-release a part of digits only is a natural as it is printed |
| `SemVer.CoreNumbersAreNaturals` | internal/semver/semver.go:94-96 | Core numbers are exactly the naturals as they are printed |
| `SemVer.ParseLanguage` | internal/semver/semver.go:19-41 | `Parse` accepts exactly the language of items 2, 9 and 10 of Semantic Versioning 2.0.0 |
| `SemVer.Recovers` | internal/semver/semver.go:19-41 | Every printed release, with or without build metadata, is accepted and gives back its core and pre-release fields |
| `SemVer.AcceptsOnlyPrinted` | internal/semver/semver.go:19-41 | Every accepted string is the printed form of a release with the fields returned |
| `SemVer.CommandLanguage` | internal/semver/semver.go:44-46 | The same language with or without one leading v, and no value is read both ways |
| `Precedence.CompareNumeric` | internal/semver/semver.go:130-151 | The sign of the difference of the naturals that two digit strings of any length denote |
| `Precedence.CompareIdentifier` | internal/semver/semver.go:72-84 | One round of the loop decides the order of two identifiers: numbers by value, words in ASCII order, numbers below words |
| `Precedence.ComparePrerelease` | internal/semver/semver.go:59-91 | Decides the declarative order of pre-release lists, both directions and equality |
| `Precedence.Compare` | internal/semver/semver.go:50-92 | Decides item 11 of Semantic Versioning 2.0.0: -1, 0 or 1 as the first precedes, ranks with or follows the second |
| `Precedence.TotalPreorder` | internal/semver/semver.go:50-92 | The comparison is reflexive, antisymmetric in sign and transitive, strictly so when a step is strict |
| `Precedence.Trichotomy` | internal/semver/semver.go:50-92 | Exactly one of before, after and same rank |
| `Precedence.SameRankIsEquality` | internal/semver/semver.go:48-92 | Between accepted versions 0 means identical core and pre-release, and only then; build metadata never counts |
| `Precedence.NumbersBelow` | internal/semver/semver.go:72-91 | After any common beginning and with anything behind: a smaller number is below a larger one, of any size, and a number is below whatever is not one |
| `Precedence.WordsBelow` | internal/semver/semver.go:72-91 | Two words rank by their first different character, or the shorter first |
| `Precedence.LongerIsHigher` | internal/semver/semver.go:59-71 | A list is below every longer one that begins with it, and any list is below none at all |
| `Precedence.PrecedenceOfPrinted` | internal/semver/semver.go:48-58 | For printed releases the order is that of the numbers and identifiers printed |

## Left out

- JSON encoding, strict decoding and UTF-8 validation: payloads are strings or bytes, an encoder is injective with non-empty output, a decoder is any partial function; an encoder that fails is an outcome of its own.
- `Call` with a nil context or a payload above half the frame limit: refused before a serial is drawn, with no effect on the peer.
- SHA-256 and hexadecimal: any function from bytes to text; no collision is assumed only where a lemma says so, and a digest text of 64 characters only in the round trip.
- Clocks: deadlines and timeouts are steps that may happen at any moment. Only safety is proved; that a handler ever returns is up to the handler.
- The order in which a sweep calls cancel functions: a sweep is one step.
- A cancel function that is looked up under the registry lock and called after it (`pluginapi/server.go:187-208`): looking up and calling are one step.
- A provider or capability handler that panics outside the recovered section, and a nil stream, handler, reader or writer: the process ends or the call is refused.
- Machine integers other than the uint64 serial and the 32-bit frame length: units, sizes and offsets are unbounded; offsets never exceed 256 MiB, and the unit after the largest `int` is not modelled.
- `remoteHost` and the revocation of a phase's host (`pluginapi/special/server.go:26-46`): check then act, so nothing strict can be said from the SDK alone.
- Which of the provider's stateless methods (template, compile, the two reports) a request reaches, and what it is given besides the payload: they add no call to the trace, and one name stands for them.
- What a capability response contains beyond its kind, its identifier, a success flag and a cancel's answer: the result of a handler and its error code are not part of this model.
- The failure of `json.Marshal` in freezing a run (`pluginapi/special/server.go:131`): its error is ignored by the code, and cannot occur for a value that was just decoded.
- The results about joined peers are about two peers that both run this code; with an arbitrary other side only the one-peer results hold.
- What the output of the capability server ends with when the shutdown response itself is lost, that is, when it does not encode within the limit or its write fails: another response may then be the last.
- Bytes of a version string that are not UTF-8: strings are sequences of characters here; such bytes decode to a character above ASCII, and those are all refused.
- `command.go`, `manifest.go`, `pluginapi/ocr`, `pluginapi/plugintest`: flags, files, build information and field checks that are settled by reading them.
- The target design in `docs/special-design-v1.md` and `docs/special-evidence.md` (journals, seals, evidence acknowledgements): not implemented in the repository.
