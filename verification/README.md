# Verified model of nats-grpc

nats-grpc carries gRPC over NATS: unary calls as NATS request/reply, bidirectional
streams as Call/Data/End/Ping frames one way and Begin/Data/End/Pong the other, and a
sidecar that bridges plain gRPC applications onto those subjects. This project models
that machinery in Dafny 4.11 and proves what its documentation promises, or, where the
code does something else, exactly when the promise holds.

Check everything with `dafny verify dfyconfig.toml`.

## How it is built

Concurrent code is a transition system: a value holds the fields and channels the
goroutines share and where each goroutine stands, one event is one critical section,
one choice of a `select`, or one publication (which may fail), a disabled event changes
nothing, and the properties are about `Run` over arbitrary sequences of events. Code
that one goroutine runs alone is also a class whose methods update the fields in place,
proved against the same specification functions. What a caller, a handler or an upstream
did is read off the events (`DeedsOf`, `AskedIn`, `MetasOf`, `StoryOf`, `TaleOf`), so that
the theorems compare what comes out with what was asked for.

| files | what they hold |
|---|---|
| Wire | frames, metadata, errors, stats events; monitors for `Begin Data* End` and for stats traces, and what they accept |
| ServerStream, ServerSystem, ServerMapping, ServerTheorems, ServerProgress, ServerLimits, ServerStop | the server streams that late frames can create for one reply inbox, with dispatcher, inbox worker, handler and `Stop` interleaved; which stream the map holds |
| ServerAnswers, ServerOwed | what the handler of a stream did, read off the events, and what the stream answers and owes for it |
| Server | `Server` and `serverStream` as objects |
| ClientStream, ClientTheorems, ClientSends, ClientOwed, Client, Blocked | one client stream with caller, `ReadMsg`, watcher, pinger, monitor and `Client.Close` interleaved; what it publishes of what it was asked, and the teardown it owes; the same as objects; goroutines that cancellation does not free |
| Session, SessionStop, SessionRuns, SessionProgress, SessionLimits | client, NATS and server together: the end-to-end theorems, `Stop` among everything else, and whole runs that deliver or lose |
| SessionSends, SessionAnswers, SessionReplies, SessionMetadata, SessionOwed | the same from the caller's calls to the handler and from the handler's calls to the caller: payloads, status, metadata, stats and ends that are due |
| Ingress, IngressTheorems, IngressWorker, Sidecar | workers of a registration racing its teardown; one worker's merge of two directions; registrations as objects |
| Pump, Egress | `pumpBidi` and the gRPC proxy as one two-forwarder protocol; egress routing |
| Subjects | subjects, patterns and NATS matching |
| Headers, Heartbeat, Unary | header freezing, heartbeat bounds over reals, the unary path |
| Descriptors, SymbolScan, SymbolNames, SortedNames, SymbolIndex, Dependencies, Reflection | the reflection service's index (what it is, what its keys are, and the scan that fills it), import traversal and session |

## Assumptions

- NATS delivers the messages of one subject in order and loses none within the pending
  limits of a subscription. Contexts only go from live to cancelled. A `select` with
  several ready cases may take any of them. The application does not call `SendMsg`
  concurrently on one stream, nor `CloseSend` during a `SendMsg`.
- A reply inbox carries at most one Call. For the nrpc client this is proved
  (`Sessions.AfterKeeps`), not assumed; `clientStream.Invoke` and foreign peers are out.
- Bodies guarded by `beginOnce` and `endOnce` are atomic, as are the sections under one
  mutex; the unlocked fields `endErr` and `statsBegun` are not given weaker semantics.
- Marshalling round-trips; a file name stands for one file descriptor in a process.
- Errors never are gRPC statuses with code OK (`WellFormedError`), as in grpc-go.

## Where the code and its description differ

The model follows the code. Each point below is a lemma.

- A Data frame processed after an Unimplemented close reports Begin with no End
  (`SessionLimits.BeginWithoutEnd`); an End is reported exactly when Begin preceded the
  first finalize (`Sessions.ServerStats`).
- `Server.remove` deletes by reply only. Until `Stop` this never unmaps a live stream
  whose handler runs, because a client publishes at most one error End
  (`ServerMapping.StartedIsMapped`), and no payload is lost (`Sessions.NothingLost`).
  During `Stop` the finalize of an older stream can unmap a newer live one, whose next
  payloads go to a third stream (`SessionLimits.DivertedPayload`); then nothing is lost
  exactly when no payload was dispatched to a newer stream
  (`Sessions.NothingLostDuringStop`).
- `ensureStreamWorker` checks and stores in two critical sections, and each subscription
  has its own callback. A list of services of which one is a token prefix of another, or
  one is listed twice, lets two callbacks create workers for one stream; teardown then
  never cancels the first, whose exit deletes the second's entry. `openIngress` accepts
  such lists. For all other lists, and only for them, no cancellation is ever lost
  (`IngressTheorems.NoLostCancellationExactly`, `RunningIsListedExactly`).
- `processEnd` cancels right after closing the receive channel, so `RecvMsg` may return
  Canceled instead of the last payload or EOF (`ClientTheorems.LastPayloadAtRisk`):
  exactly the one buffered payload can be missing, exactly once that `done()` has
  cancelled (`ClientTheorems.LastPayloadExactly`). An error status is visible exactly
  once `ReadMsg` has returned (`ClientTheorems.StatusVisibleExactly`); a heartbeat
  timeout is never visible (`ClientTheorems.TimeoutIsHidden`).
- `streamOnSubject` stores the stream after its watcher started; a stream cancelled in
  between stays in `Client.streams` for good (`ClientTheorems.LateLeaks`).
- Only `SendMsg` publishes the Call. A stream closed with no message sent, an ordinary
  client-streaming call, never starts a handler, and without a deadline its caller's
  `RecvMsg` waits for ever (`Sessions.NothingWithoutSend`, `SessionLimits.CloseSendAlone`);
  the sidecar drops such a first End (`IngressWorkers.ReplyGrammar`). Every other number
  of messages is delivered (`SessionProgress.SentIsDelivered`).
- `clientStream.processEnd` keeps the trailer exactly when there is a target for it,
  from a call option or an earlier `Trailer()`, whose map is not nil, or when it carries
  no value (`Headers.TrailerKeptExactly`). A call option given the address of an unset
  `metadata.MD` is a target with a nil map: its first value panics in `ReadMsg`, in
  `processBegin` as well (`Headers.HeaderKeptExactly`, `Headers.UnsetVariablesPanic`).
- A refused upstream answers the sidecar's caller with an End that no Begin precedes
  (`IngressWorkers.ReplyGrammar`).
- HEARTBEAT.md promises detection 10 to 15 seconds after the server's death; the code
  closes the stream in (P+T, P+T+I] after the last Pong at P, 15 to 20 seconds with the
  defaults. `timeout > interval` does not prevent false alarms (`Heartbeat.OneLostPong`).
- A unary response with an empty body leaves the caller's reply as it was
  (`Unary.CallIsDirect`).
- `processData` sends on the receive channel outside any `select`, on both sides. Once a
  stream is cancelled and nobody comes back to `RecvMsg`, `ReadMsg` and the inbox worker
  return exactly when they are not blocked there; otherwise the goroutine stays for good
  (`Blocked.ReaderReturnsExactly`, `Blocked.WorkerReturnsExactly`).
- The queue group `u:<svcid>:<service>` belongs to one svcid and service exactly when
  neither has a colon (`Subjects.QueueGroupExactly`).
- `fileDescWithDependencies` has no visited check on enqueue: from a root it ends exactly
  when no chain of imports from that root leads to a cycle
  (`Dependencies.TraversalEndsExactly`).
- `getSymbols` ranges over a map: when two files declare one name, which of them the
  index holds depends on the order of the services (`SymbolScan.OrderIrrelevantExactly`).
- The proxy takes io.EOF from the `SendMsg` of a gRPC client stream for the caller's own
  and half-closes with that message dropped (`Pumps.HalfCloseWithALoss`); the RPC is over
  by then, and grpc-go reports its status on `RecvMsg`. `pumpBidi` is not exposed to it
  (`Pumps.NilMeansEverything`).

## Model

| member | source | states |
|---|---|---|
| Sessions.AfterKeeps | pkg/rpc/server.go:446-837 | every run of client, NATS and server together keeps the joint invariant: the client's FIFO of requests is what the server's dispatcher consumes, the reply inbox what ReadMsg consumes, at most one Call travels |
| Sessions.ClientToHandler | pkg/rpc/server.go:566-719 | in every run each server stream hands its handler a subsequence of the payloads the client sent; a live handler that saw io.EOF got exactly the payloads sent, from the frame that created its stream, before CloseSend; these are all payloads before CloseSend if and only if no CloseSend was published before that frame, or no payload between that frame and the next CloseSend |
| Sessions.EofMeansAllSent | pkg/rpc/server.go:703-719 | in every run in which the caller never calls SendMsg after CloseSend, io.EOF at a live handler means it got every payload the client published, in order |
| Sessions.NothingLost | pkg/rpc/server.go:446-486 | in every run, until Server.Stop: a live stream whose handler has started, or that the Call has created, is the entry of Server.streams, whatever late frames and error Ends create and remove; and until it processes the half-close, received ++ buffered ++ held ++ inbox ++ dispatcher ++ NATS equals the payloads the client sent, in order |
| Sessions.NothingLostDuringStop | pkg/rpc/server.go:290-305 | during Stop the same sum holds if and only if no Data frame was dispatched to a newer stream of the reply, and so while the stream is the entry |
| Sessions.PublishedToClient | pkg/rpc/client.go:720-743 | in every run, whatever is cancelled: RecvMsg returned a prefix of the payloads on the reply inbox; io.EOF means all of them; after an OK End at most one is undelivered |
| SessionAnswers.HandlerToClient | pkg/rpc/server.go:802-825 | in every run, whatever is cancelled: RecvMsg returned a subsequence of the payloads the handler gave SendMsg or returned as its response; with every publication of the stream succeeding a prefix, all of them once io.EOF is seen, all but one at most once the OK End is taken |
| SessionAnswers.PaidIsGiven | pkg/rpc/server.go:802-825 | in every run, what a server stream publishes as Data is a subsequence of what its handler gave, and with publications succeeding all of it but the payload SendMsg has in hand |
| SessionAnswers.EndIsTheHandlers | pkg/rpc/server.go:743-750 | in every run, an End of a stream says what its handler returned on a live stream: OK for nil and only then, a status error's code and message, Unknown and the text of any other; the only other Ends are Unimplemented without a registered handler, and the one after a Begin that could not be published |
| SessionAnswers.EndIsOwed | pkg/rpc/server.go:154-180 | once a handler that returned on a live stream is through, with every publication succeeding, the last publication, Pongs aside, is an End that says what it returned |
| SessionAnswers.KeptIsTheHandlers | pkg/rpc/server.go:617-630 | the error a stream is finalized with, which the stats End carries, is the handler's as well, or Unimplemented, the lost Begin's, Stop's, or that of an End the client sent |
| SessionAnswers.EofMeansNil | pkg/rpc/client.go:720-743 | io.EOF at the client means that the handler returned nil |
| SessionAnswers.StatusIsTheHandlers | pkg/rpc/client.go:863-872 | the status ReadMsg records is the one an End of a server stream says, that is the handler's or one of the two other Ends |
| SessionAnswers.AnswerIsTheHandlers | pkg/rpc/client.go:720-743 | whatever error RecvMsg answers: Canceled, DeadlineExceeded, a message that does not parse, or such a status |
| SessionAnswers.PongsAnswerPings | pkg/rpc/server.go:721-726 | in every run, the Pongs of a stream carry the timestamps of the Pings it took, in order, one each while publications succeed |
| SessionReplies.GivenIsReceived | pkg/rpc/server.go:160-180 | for any n payloads, none included: a session in which the handler gives exactly them to SendMsg and returns nil, and the client receives exactly them and io.EOF |
| SessionSends.GivenToHandler | pkg/rpc/client.go:657-704 | in every run, the handler of any stream received a subsequence of the payloads the caller gave SendMsg; if the caller keeps the contract of grpc.ClientStream and no Data publication failed, io.EOF at a live handler means exactly those payloads, and a CloseSend |
| SessionSends.SentIsAsked | pkg/rpc/client.go:561-704 | every frame the server is sent was asked for: the Call of the method, a payload given to SendMsg, the half-close of CloseSend, a Ping of pingLoop, the End of a heartbeat timeout |
| SessionMetadata.MetadataIsTheHandlers | pkg/rpc/server.go:728-788 | in every run, Begin carries the server's nid and, key by key and in order, the headers set before it; End carries the trailers set, all of them once the handler has returned |
| SessionMetadata.BeginIsOwed | pkg/rpc/server.go:774-780 | once SendHeader was called, with every publication succeeding, the first publication is a Begin |
| SessionOwed.UnimplementedIsOwed | pkg/rpc/server.go:655-684 | a Call without a registered handler is answered: once the worker is through with close, publications succeeding, the last publication is an End with Unimplemented |
| SessionOwed.ReturnedIsDone | pkg/rpc/server.go:154-180 | a handler that has returned makes no more calls; if it returned on a live stream, or a Begin of its SendMsg was lost, the stream is finalized, cancelled and unmapped once its goroutine is through |
| SessionOwed.GivingUpFinalizes | pkg/rpc/server.go:703-719 | a stream whose worker took an End with an error status is finalized, cancelled and unmapped once the worker is through |
| SessionOwed.PayloadsAreReported | pkg/rpc/server.go:686-701 | in every run, the stats InPayload events are those of the payloads accepted from the client, and while no Begin is lost the OutPayload events those of the payloads the handler gave, but for the one in hand: in order, each with its length |
| SessionOwed.StoppedIsDead | pkg/rpc/server.go:290-307 | once Stop is done every stream of the reply is cancelled, whenever it was created |
| SessionOwed.NothingFails | pkg/rpc/server.go:839-846 | a stream none of whose steps loses its publication counts as one whose publications all succeeded |
| Sessions.OneOfEach | pkg/rpc/server.go:464-479 | in every run, across all server streams that late frames create for one reply: at most one handler is launched, at most one End is published, only Pongs follow an OK End, and with publishes succeeding the inbox is a prefix of Begin Data* End |
| Sessions.ServerStats | pkg/rpc/server.go:599-636 | in every run, under any race of handler completion, error End and Stop: one leading Begin, at most one End, an End exactly when Begin preceded the first finalize, carrying that finalize's error |
| Sessions.FinalizedNeverReturns | pkg/rpc/server.go:617-630 | a stream whose finalize has completed is never the map entry again |
| Sessions.NothingWithoutSend | pkg/rpc/client.go:561-678 | in every run in which the caller never calls SendMsg, CloseSend or not: no Call goes out, no stream of the server starts a handler, the reply inbox carries Pongs only, RecvMsg returns neither a payload nor io.EOF, and unless the caller, pongMonitor or Client.Close cancels it never returns |
| SessionStopping.StopFinalizesItsSnapshot | pkg/rpc/server.go:290-307 | in every run, with dispatcher, worker, handler and client steps in between: the stream Stop finds in the map is, once its loop is through and in every continuation, finalized and not the entry, with at most one End in its stats, and one if it had begun and was not finalized when Stop found it |
| SessionStopping.UnsubscribedIsDeaf | pkg/rpc/server.go:307-313 | once Stop has unsubscribed no frame is dispatched and no stream created, in any continuation |
| SessionProgress.SentIsDelivered | pkg/rpc/server.go:566-594 | for any n payloads, none included: a session of n SendMsg and a CloseSend after which every schedule of delivery steps that each change the server ends; and when none changes it any more the handler runs and has io.EOF and exactly the n payloads, if and only if n > 0 |
| SessionLimits.CloseSendAlone | pkg/rpc/server.go:703-719 | a session of a CloseSend alone: the server has made a stream of it and closed its receive side, and started no handler |
| SessionLimits.DivertedPayload | pkg/rpc/server.go:482-486 | a session: pongMonitor's End passes the Call of a SendMsg already under way, Stop's finalize of the stream that End created unmaps the live stream of the Call, and the client's payload never reaches its running handler |
| SessionLimits.BeginWithoutEnd | pkg/rpc/server.go:664-701 | a session: after the Unimplemented close a queued Data frame reports Begin on the finalized stream and no End follows |
| ServerStreams.LocalStepKeeps | pkg/rpc/server.go:577-837 | every critical section of the inbox worker, the handler and the close path keeps the whole invariant of one server stream: queue contents, thread positions, close-once, wire digest, stats phase |
| ServerStreams.TakeKeeps | pkg/rpc/server.go:577-719 | taking and processing the next inbox frame (Call, Data, End, Ping or an unparseable one) keeps it |
| ServerStreams.HandlerCallKeeps | pkg/rpc/server.go:762-837 | every call of the handler on its stream keeps it |
| ServerSystem.StepKeeps | pkg/rpc/server.go:446-630 | every step of dispatcher, worker, handler and Stop keeps the invariant over all streams of one reply: frame numbers increase along streams, live streams have no gap, the inbox carries one stream's publications |
| ServerSystem.RunKeeps | pkg/rpc/server.go:446-630 | hence every run from the initial state does, given at most one Call per reply |
| ServerSystem.CallTakenOnce | pkg/rpc/server.go:464-479 | the one Call is taken by at most one of the streams |
| ServerAnswers.StepAnswers | pkg/rpc/server.go:743-837 | every step of the server keeps what its streams publish and are finalized with in line with what their handlers did |
| ServerMapping.StepKeepsMapping | pkg/rpc/server.go:464-486 | while the client has published at most one error End, every step before Stop keeps: a reply has at most two streams, the first without the Call and removed, unless the stream of the Call is dead |
| ServerMapping.StartedIsMapped | pkg/rpc/server.go:464-486 | hence, until Stop, a live stream that has taken the Call is the entry of Server.streams, although remove deletes by reply |
| ServerMapping.CreatedIsMapped | pkg/rpc/server.go:464-486 | so is a live stream that the Call has created, from the start |
| ServerTheorems.LiveStretch | pkg/rpc/server.go:566-572 | a live stream holds a gap-free stretch of the client's frames, up to the last dispatched one while it is mapped |
| ServerTheorems.ConservationExactly | pkg/rpc/server.go:464-480 | payload conservation for one server stream, Stop included, holds if and only if no Data frame was dispatched to a newer stream |
| ServerTheorems.Conservation | pkg/rpc/server.go:464-480 | and always while the stream is mapped |
| ServerTheorems.ConservationSince | pkg/rpc/server.go:464-480 | whatever live stream is the entry holds or has handed over, with dispatcher and NATS, all that was sent from the frame that created it |
| ServerTheorems.EofMeansEverything | pkg/rpc/server.go:703-719 | io.EOF at a live handler means the client half-closed since the stream was created and the handler received exactly what was sent from then until the half-close |
| ServerTheorems.EofSinceTheCallExactly | pkg/rpc/server.go:703-719 | for the stream that took the Call these are all payloads before the client's first half-close, if and only if no half-close was sent before the frame that created the stream, or no payload between that frame and the next half-close |
| ServerTheorems.EofMeansAllSent | pkg/rpc/server.go:703-719 | with no payload after a half-close, io.EOF at the live handler means it received every payload |
| ServerTheorems.NothingInvented | pkg/rpc/server.go:566-572 | after cancellation, with frames dropped at will, what the handler received is still a subsequence of what was sent |
| ServerTheorems.OneHandler | pkg/rpc/server.go:655-684 | at most one handler over all streams of the reply |
| ServerTheorems.OneEnd | pkg/rpc/server.go:743-750 | at most one End over all streams of the reply, and only Pongs after an OK End, even if publishes fail |
| ServerTheorems.InboxGrammar | pkg/rpc/server.go:728-750 | with publishes succeeding, a prefix of Begin Data* End once Pongs are erased |
| ServerTheorems.StatsLifecycle | pkg/rpc/server.go:599-630 | the stats trace of every stream is Begin first and once, at most one End, and exactly when there is one |
| ServerTheorems.RemovedIsUnmapped | pkg/rpc/server.go:617-630 | a stream whose finalize has completed is finalized and not the map entry |
| ServerProgress.DeliveryLowers | pkg/rpc/server.go:566-594 | with a live context and a reading handler every delivery step that does anything lowers a weighted count of frames in NATS, inbox, worker and buffer, in any schedule |
| ServerProgress.NeverStuck | pkg/rpc/server.go:686-701 | and until EOF one such step is always enabled, despite the blocking send into a buffer of one |
| ServerProgress.EveryScheduleDelivers | pkg/rpc/server.go:566-594 | any sequence of delivery steps that each change the state has at most weight plus one members; when no delivery step changes it any more, EOF was reported and the handler received all payloads sent, since its stream was created, before the half-close |
| Servers.FirstFinalizeWins | pkg/rpc/server.go:617-630 | however often finalize is called afterwards, the stream stays as the first call left it |
| Servers.StoppedTrace | pkg/rpc/server.go:290-305 | Stop ends a begun, unfinalized stream with Unavailable and leaves the trace of any other as it was |
| Servers.ValidStream | pkg/rpc/server.go:599-825 | what every method of a stream keeps, in any order of calls in which close runs once and no Data is sent after it: with the connection up its publications, Pongs aside, are a prefix of Begin Data* End opened by a Begin with the header as it stands, which is frozen by then; Begin leads the stats, with one End exactly when Begin preceded the first finalize |
| Servers.AfterCloseExactly | pkg/rpc/server.go:743-750 | once Begin is out, one more Data or End keeps that grammar if and only if the connection is down or close has not run: a second close would publish a second End |
| Servers.ServerStream.StatsBegin | pkg/rpc/server.go:599-611 | Begin is reported by the first call only |
| Servers.ServerStream.Finalize | pkg/rpc/server.go:617-630 | End is reported by the first call only and only after Begin; every call cancels and unmaps |
| Servers.ServerStream.ProcessCall | pkg/rpc/server.go:655-684 | a registered path reports Begin and launches; any other is closed with Begin, End(Unimplemented) on the wire |
| Servers.ServerStream.ProcessData | pkg/rpc/server.go:686-701 | after the half-close Data is ignored; before it, Begin is reported first, and the payload is what the worker must hand over |
| Servers.ServerStream.ProcessEnd | pkg/rpc/server.go:703-719 | a non-OK status finalizes with that error, OK or none only closes the receive side |
| Servers.ServerStream.ProcessPing | pkg/rpc/server.go:721-726 | one Pong with the Ping's timestamp and nothing else changes |
| Servers.ServerStream.BeginMaybe | pkg/rpc/server.go:728-741 | Begin goes out once, with the headers set so far; false exactly when it had to and could not |
| Servers.ServerStream.Close | pkg/rpc/server.go:743-750 | Begin if none went out, End with the error's status and the trailer, then finalize |
| Servers.ServerStream.SetHeader | pkg/rpc/server.go:762-772 | joined before Begin, refused and without effect after it |
| Servers.ServerStream.SendHeader | pkg/rpc/server.go:774-780 | after Begin nothing happens; before it the header is joined and Begin goes out |
| Servers.ServerStream.SendMsg | pkg/rpc/server.go:802-825 | Begin before the first Data; a failed Begin closes the stream, a failed Data goes unnoticed |
| Servers.ServerStream.RecvMsg | pkg/rpc/server.go:827-837 | the oldest buffered payload, or EOF once the buffer is empty and closed |
| Servers.Server.Lookup | pkg/rpc/server.go:464-471 | the stream of the reply if there is one, otherwise a fresh one stored under it; keys stay equal to replies |
| Servers.Server.Snapshot | pkg/rpc/server.go:292-297 | every stream of the map exactly once, in any order |
| Servers.Server.Stop | pkg/rpc/server.go:290-307 | run alone: every stream of the snapshot ends finalized by Stop unless it was before, and the map it shrinks on the way is empty afterwards |
| ClientStreams.StepKeeps | pkg/rpc/client.go:540-873 | every step of caller, ReadMsg, watcher, pinger, monitor and Client.Close keeps the invariant of the client stream |
| ClientStreams.RunKeeps | pkg/rpc/client.go:540-873 | hence every run does |
| ClientTheorems.ReceivedIsPrefix | pkg/rpc/client.go:613-630 | what RecvMsg returned is a prefix of what arrived, under every interleaving |
| ClientTheorems.EofMeansEverything | pkg/rpc/client.go:825-873 | io.EOF means an OK End was processed and everything before it was returned; after an OK End at most the one buffered payload is missing |
| ClientTheorems.TornDownOnce | pkg/rpc/client.go:632-655 | whoever races into done(), each channel is closed at most once, nothing is sent on a closed one, stats is Begin ... at most one End, and the End is there exactly when done() got to report it |
| ClientTheorems.RemovedExactly | pkg/rpc/client.go:632-655 | after done() the context is cancelled and everything closed; Client.streams still holds the stream if and only if it was stored after the removal |
| ClientTheorems.LateLeaks | pkg/rpc/client.go:406-412 | a stream stored too late stays in the map in every continuation |
| ClientTheorems.LateRegistration | pkg/rpc/client.go:406-412 | and such a run exists: the watcher finishes done() before streamOnSubject stores the stream |
| ClientTheorems.StatusVisibleExactly | pkg/rpc/client.go:613-630 | after an error End the reader takes nothing more, and RecvMsg reports its status if and only if ReadMsg has returned; until then Canceled or DeadlineExceeded |
| ClientTheorems.TimeoutIsHidden | pkg/rpc/client.go:901-923 | a heartbeat timeout never becomes RecvMsg's error; without an error End or a garbled message it reports Canceled or DeadlineExceeded |
| ClientTheorems.LastPayloadExactly | pkg/rpc/client.go:720-743 | in every run without the caller's cancellation, a heartbeat timeout or Client.Close, RecvMsg can answer an error if and only if processEnd's own done() has cancelled the context, on an End it took; from then on what was taken and not returned is exactly the buffer, so that nothing is missing if and only if the buffer is empty |
| ClientTheorems.LastPayloadAtRisk | pkg/rpc/client.go:863-872 | a run in which only processEnd cancels, after which the OK End was taken, the last payload is still in the buffer and RecvMsg has answered Canceled |
| ClientTheorems.CancelledAnswerExactly | pkg/rpc/client.go:720-743 | with no status recorded, RecvMsg on a cancelled stream answers DeadlineExceeded if and only if the deadline passed, and Canceled otherwise |
| ClientTheorems.ReportedEndExactly | pkg/rpc/client.go:632-655 | in every run in which the caller, pongMonitor and Client.Close leave the stream alone, the stats End that done() reports carries nil if and only if the first End taken was OK, otherwise that End's status |
| ClientTheorems.ReportedErrorIsKnown | pkg/rpc/client.go:632-655 | in every run, an error in the stats End is the status of an End that was taken, or the heartbeat's and then the heartbeat timed out |
| ClientSends.SentIsGiven | pkg/rpc/client.go:657-704 | in every run, the Data a client stream publishes is a subsequence of what SendMsg was given, and while publications succeed all of it but the payload in hand |
| ClientSends.RequestsAreAsked | pkg/rpc/client.go:561-704 | every request it publishes was asked for: a Call carries the method path, an End is CloseSend's with status OK or the heartbeat's, a Ping carries a timestamp pingLoop took before the stream was closed |
| ClientOwed.TeardownIsOwed | pkg/rpc/client.go:632-655 | whenever the watcher has left, the heartbeat timed out, Client.Close found the stream, or an End was taken, and nobody is inside done(): the stream is closed, cancelled, unsubscribed, its channels closed and one End reported |
| ClientOwed.MonitorLeavesLast | pkg/rpc/client.go:901-923 | pongMonitor leaves only a stream that is closed or whose context is cancelled |
| ClientOwed.TimeoutIsReported | pkg/rpc/client.go:901-923 | a stream that pongMonitor tore down has reported an End with an error |
| ClientOwed.GarbledEndsReading | pkg/rpc/client.go:588-630 | a message that does not parse ends ReadMsg, whose recorded error RecvMsg reports once the context is cancelled |
| ClientOwed.PayloadsAreReported | pkg/rpc/client.go:657-704 | in every run, the stats InPayload events are those of the payloads taken before the OK End, the OutPayload events those given to SendMsg but for the one in hand: in order, each with its length |
| Blocked.ReaderReturnsExactly | pkg/rpc/client.go:825-837 | in every run that has cancelled a client stream, ReadMsg can still return with nobody in RecvMsg if and only if it is not blocked handing a payload to a full buffer |
| Blocked.WorkerReturnsExactly | pkg/rpc/server.go:686-701 | likewise the inbox worker of a cancelled server stream |
| Clients.DoneRefines | pkg/rpc/client.go:632-655 | the steps of done() taken one by one by the winner, with nobody interfering, have the effect the method states |
| Clients.MessageRefines | pkg/rpc/client.go:825-873 | the methods on Data and End have the effect of ReadMsg taking the message, and of done() after an End, step by step |
| Clients.ValidStream | pkg/rpc/client.go:632-704 | what every method keeps in any order of calls and whatever publication fails: the Call leads and goes out at most once, done() has undone everything or nothing, stats is Begin and, exactly after done(), one End |
| Clients.ClientStream.Done | pkg/rpc/client.go:632-655 | the first call ends, cancels, closes and unmaps, and reports a failed Unsubscribe; later calls change nothing and report that |
| Clients.ClientStream.Close | pkg/rpc/client.go:576-582 | End with the error's status goes out, unnoticed if it cannot, then the teardown with that error |
| Clients.ClientStream.SendMsg | pkg/rpc/client.go:657-704 | refused without effect once closed; the Call goes out before the first Data and only then; a failed Data publication is returned, a failed Call is not |
| Clients.ClientStream.ProcessData | pkg/rpc/client.go:825-837 | ignored after the OK End, otherwise reported and handed to the blocking send |
| Clients.ClientStream.ProcessEnd | pkg/rpc/client.go:839-873 | an error End tears down with that error, which is returned for ReadMsg to record; an OK End closes the receive channel first |
| Clients.Client.Close | pkg/rpc/client.go:153-171 | every stream of the snapshot is torn down, whatever the order; what is left in the map had been closed before; nil is returned exactly when every done() succeeded, otherwise the error of one that failed |
| IngressSystem.StepKeeps | pkg/sidecar/ingress.go:41-83 | every step of worker creation (in the callback of each subscription, several for one reply included), worker exit and teardown keeps the registration's invariant |
| IngressSystem.RunKeeps | pkg/sidecar/ingress.go:257-339 | hence every run does, for any services and any streams callers open |
| IngressTheorems.NoLostCancellationExactly | pkg/sidecar/ingress.go:257-317 | whatever streams callers open: when teardown has completed each worker is cancelled, on its way out, or still before its addStream - in every run if and only if no service of the list is a token prefix of another or listed twice |
| IngressTheorems.LostCancellation | pkg/sidecar/ingress.go:257-317 | otherwise a run in which two callbacks create workers for one reply, the second addStream overwrites the first, and a completed teardown leaves the first worker running uncancelled |
| IngressTheorems.LateAddCancels | pkg/sidecar/ingress.go:41-50 | a worker that reaches addStream after teardown is cancelled there |
| IngressTheorems.TornDownClean | pkg/sidecar/ingress.go:60-83 | nothing is stored in streamCtxs once torndown is set; each subscription is unsubscribed at most once, and exactly once when teardown has completed |
| IngressTheorems.RunningIsListedExactly | pkg/sidecar/ingress.go:257-317 | before teardown every running worker is the one listed under its reply, so that no exit removes another's entry - in every run if and only if the services are such a list |
| IngressTheorems.StreamsDrain | pkg/sidecar/ingress.go:332-339 | when all workers are gone Sidecar.streams is empty |
| IngressTheorems.ExitsAreClean | pkg/sidecar/ingress.go:332-339 | for any services: a worker that has left its loop is not listed for cancellation, one that is gone has cancelled its own context |
| IngressTheorems.SoleIsIndexed | pkg/sidecar/ingress.go:257-317 | a worker that runs is found under its reply in Sidecar.streams, if it is the only one ever made for that reply |
| IngressTheorems.CallbackGetsThrough | pkg/sidecar/ingress.go:257-330 | no callback gets stuck in ensureStreamWorker, whether or not the upstream accepts the stream |
| IngressWorkers.RunKeeps | pkg/sidecar/ingress.go:332-386 | every interleaving of the worker's loop and its upstream pump keeps the worker's invariant |
| IngressWorkers.WorkerOutput | pkg/sidecar/ingress.go:332-430 | while publications succeed, the publications of a worker, Pongs erased, are a prefix of Begin Data* End, and their payloads followed by the one in hand are the messages the upstream's RecvMsg returned, in order |
| IngressWorkers.ReplyGrammar | pkg/sidecar/ingress.go:277-330 | with publications succeeding, from the first frame on: nothing if and only if it is no Call with a method; one error End without Begin, with the refusal's code and message, if and only if the upstream refuses the stream; otherwise a prefix of Begin Data* End with its Begin, which carries the sidecar's nid |
| IngressWorkers.EndIsLast | pkg/sidecar/ingress.go:371-430 | End is the very last publication; its code is OK if and only if the upstream ended with io.EOF, otherwise it is the upstream's own code and message, or Unknown and the text of an error without a status; every message was published before it |
| IngressWorkers.EndIsOwed | pkg/sidecar/ingress.go:354-386 | a worker that returned without being cancelled has published that End, if publications succeed |
| IngressWorkers.PongsAnswerPings | pkg/sidecar/ingress.go:373-374 | while publications succeed, the Pongs of a worker carry the timestamps of the Pings it took, in order, but for the one in hand |
| IngressWorkers.NeverStuck | pkg/sidecar/ingress.go:354-386 | until it returns a worker has a frame to publish, or the upstream's outcome to take as soon as there is one, or at its select a frame to take, or the way out once cancelled |
| IngressWorkers.WorkerInput | pkg/sidecar/ingress.go:354-386 | the upstream is sent the payloads of the frames handed to the worker, in order and as far as taken, and half-closed once, exactly when the caller's End was taken, after which no frame is |
| Sidecars.Registration.AddStream | pkg/sidecar/ingress.go:41-50 | stored before teardown; cancelled at once and not stored after it |
| Sidecars.Registration.Teardown | pkg/sidecar/ingress.go:60-83 | after the first call every subscription is unsubscribed once, every listed context cancelled, nothing listed; later calls change nothing |
| Sidecars.Sidecar.SubscribeService | pkg/sidecar/ingress.go:147-167 | a unary subscription in the queue group of svcid and service, and a plain stream subscription of this replica; a failure leaves what was subscribed in the registration |
| Sidecars.Sidecar.SubscribeAll | pkg/sidecar/ingress.go:116-121 | if NATS accepts all, those two for each service in order; otherwise the registration is torn down and each subscription made was unsubscribed once |
| Sidecars.Sidecar.OpenIngress | pkg/sidecar/ingress.go:88-127 | the errors in their order; success exactly when all NATS calls succeed, with two subscriptions per service registered under the id; a refused call leaves the map as it was and every subscription it made unsubscribed once |
| Sidecars.Sidecar.CloseIngress | pkg/sidecar/ingress.go:129-134 | the registration leaves the map and is torn down, its listed streams cancelled |
| Sidecars.Sidecar.Close | pkg/sidecar/sidecar.go:165-177 | every registration of the snapshot is torn down, every listed stream context cancelled, the map is empty |
| Pumps.RunKeeps | pkg/sidecar/egress.go:103-154 | every interleaving of the two forwarders and the select loop, of either pump, keeps the pump's invariant |
| Pumps.TwoRoundsSuffice | pkg/sidecar/egress.go:138-153 | each forwarder posts exactly one outcome once stopped, never finding its channel full, and the code after the two rounds is unreachable in both pumps |
| Pumps.NeverStuck | pkg/sidecar/egress.go:103-154 | until the handler returns, a forwarder is in a call on a stream or a step of the pump is enabled |
| Pumps.ForwardedInOrder | pkg/rpc/proxy/handler.go:141-189 | each destination gets what its source yielded, in order, short of at most one message; with io.EOF as outcome nothing is missing if and only if it was not the destination that answered io.EOF |
| Pumps.HalfCloseAfterAll | pkg/sidecar/egress.go:138-145 | the loop half-closes at most once, after the caller's io.EOF, and has done so when it has taken that outcome, but for a proxy told not to; for pumpBidi it is the last thing done to the outbound stream and all local messages precede it, unless SendMsg answered io.EOF |
| Pumps.ResultIsAnOutcome | pkg/rpc/proxy/handler.go:110-138 | nil is returned only after the outbound side's io.EOF, and then the caller was sent everything if and only if it was not the caller's stream that answered io.EOF; otherwise a forwarder's error, wrapped as Internal and with the outbound stream cancelled for the proxy's s2c |
| Pumps.ResultIsTold | pkg/rpc/proxy/handler.go:110-138 | told by what the streams answered: nil means the outbound side's RecvMsg ended with io.EOF; an error is the one that ended c2s, or the one that ended s2c, from the proxy as Internal with its text |
| Pumps.MessagesAreTold | pkg/rpc/proxy/handler.go:141-189 | each destination is sent the messages its source's RecvMsg returned, in order, short of one at most; the loop half-closes only after s2c ended with io.EOF |
| Pumps.ReturnHalfCloses | pkg/rpc/proxy/handler.go:102-102 | when the proxy's handler has returned, the outbound stream has been half-closed |
| Pumps.HeaderFirst | pkg/rpc/proxy/handler.go:141-171 | the proxy sends the header once and before the first message, pumpBidi never |
| Pumps.NilMeansEverything | pkg/sidecar/egress.go:103-154 | with streams that keep their contracts (only the client stream of a gRPC connection answers SendMsg with io.EOF): nil is returned only after the outbound io.EOF with everything passed on in order; and but for that stream, half-closing follows the caller's io.EOF with all its messages sent |
| Pumps.HalfCloseWithALoss | pkg/rpc/proxy/handler.go:113-121 | a run with a gRPC client stream that answers SendMsg with io.EOF: the proxy takes it for the caller's and half-closes with the message dropped |
| Egress.StripReservedHeaders | pkg/sidecar/egress.go:171-180 | exactly the reserved keys are removed, all others keep their values |
| Egress.ReservedExactly | pkg/sidecar/egress.go:171-180 | a key is reserved if and only if its first seven letters are those of x-nats-, in upper or lower case |
| Egress.HandleEgress | pkg/sidecar/egress.go:42-74 | refused with InvalidArgument exactly without x-nats-svcid, with an unknown x-nats-mode, or streaming without x-nats-target-nid; otherwise the subject of the mode, and metadata without routing headers |
| Subjects.TokensOfDotted | pkg/rpc/subjects.go:14-23 | joining with a dot concatenates tokens |
| Subjects.DottedTokens | pkg/rpc/subjects.go:14-23 | tokens joined back give the subject |
| Subjects.SuffixExactly | pkg/rpc/subjects.go:33-35 | the suffix of a canonical path is .service.method if and only if neither contains a slash |
| Subjects.ReadBackExactly | pkg/rpc/subjects.go:61-63 | a stream subject is read back to svcid, nid, service and method if and only if svcid, nid and method are single tokens |
| Subjects.SubjectsDistinct | pkg/rpc/subjects.go:61-63 | so single-token addresses have equal subjects only if they are equal |
| Subjects.SvcidOfTwoTokens | pkg/rpc/subjects.go:61-63 | an svcid of two tokens shares its subject with another address |
| Subjects.StreamMatchExactly | pkg/sidecar/ingress.go:158-161 | a stream subject matches a sidecar's pattern if and only if svcid and nid agree and the pattern's service is a token prefix of the frame's service, hence a proper one of service.method |
| Subjects.OneSubscriptionExactly | pkg/sidecar/ingress.go:136-167 | every registered service's frames reach its own subscription and no other, on any sidecar, if and only if the services under one svcid and nid are prefix-free |
| Subjects.OverlapIsPrefix | pkg/sidecar/ingress.go:147-167 | two subscriptions of one replica that match one subject have services of which one is a token prefix of the other |
| Subjects.UnaryTokens | pkg/rpc/subjects.go:50-55 | the tokens of a unary subject are nrpc, unary, and those of svcid, service and method |
| Subjects.UnaryMatchExactly | pkg/sidecar/ingress.go:147-157 | a unary subject matches a sidecar's unary pattern if and only if svcid agrees and the pattern's service is a token prefix of the call's |
| Subjects.NamespacesDisjoint | pkg/rpc/subjects.go:14-23 | for any names, no unary pattern matches a stream subject and no stream pattern a unary subject |
| Subjects.QueueGroupExactly | pkg/rpc/subjects.go:65-70 | no other svcid and service share the queue group, if and only if neither name has a colon |
| Subjects.LegacyKeyExactly | pkg/rpc/server.go:369-390 | the subject a legacy client calls is the server's handler key if and only if service and method contain no slash |
| Subjects.LegacyStreamCollides | pkg/rpc/subjects.go:24-48 | a legacy id 'stream' yields modern stream subjects |
| Headers.HeaderFreezing | pkg/rpc/server.go:728-780 | for any sequence of SetHeader, SendHeader, SendMsg and close: one Begin as soon as a call sends it, its header key by key the concatenation of exactly the headers set up to then; those calls succeed, all later ones fail |
| Headers.Frozen | pkg/rpc/server.go:762-772 | after Begin nothing about headers changes |
| Headers.AppendAll | pkg/rpc/client.go:817-819 | per-key concatenation |
| Headers.Metadata.ProcessBegin | pkg/rpc/client.go:811-823 | the Begin header is appended, key by key, to what the client holds; with a target that points to a nil map it panics exactly when some key carries a value, and nothing is kept |
| Headers.Metadata.ProcessEnd | pkg/rpc/client.go:839-848 | likewise for the trailer, which is dropped without a target |
| Headers.TrailerKeptExactly | pkg/rpc/client.go:839-848 | the trailer is kept if and only if there is a target and its map is not nil, or it carries no value |
| Headers.HeaderKeptExactly | pkg/rpc/client.go:811-823 | the header is kept if and only if its target does not point to a nil map, or it carries no value |
| Headers.UnsetVariablesPanic | pkg/rpc/client.go:506-515 | grpc.Header(&h) and grpc.Trailer(&t) of unset variables panic on the first value |
| Headers.ReceiveHeader | pkg/rpc/client.go:811-823 | a client without a header target ends with exactly the headers accepted before Begin |
| Heartbeat.PongMonitor | pkg/rpc/client.go:901-923 | fires at the first tick more than the timeout after the last Pong, and only then |
| Heartbeat.NeverFiresExactly | pkg/rpc/client.go:876-930 | with Pong delays up to D and at most L lost in a row the monitor never fires if and only if no tick lies strictly between the timeout and (L+1) intervals plus D |
| Heartbeat.LongTimeoutNeverFires | pkg/rpc/client.go:876-930 | (L+1)*I + D <= T is enough |
| Heartbeat.OneLostPong | pkg/rpc/client.go:82-84 | the documented constraint T > I is not: below 2I one lost Pong can close the stream |
| Heartbeat.DetectionBounds | pkg/rpc/client.go:901-923 | with no Pong after time P the stream is closed in (P+T, P+T+I] |
| Heartbeat.DetectionHappens | pkg/rpc/client.go:901-923 | and there is such a tick |
| Heartbeat.DefaultsAreSlower | HEARTBEAT.md:25 | with the defaults a server can be given up 19.8 s after its death, not within 15 |
| Unary.Call.InvokeOnSubject | pkg/rpc/client.go:233-386 | on every path, for the request with the method path, encoded message and metadata: an answered call overwrites the header and trailer targets with exactly the response's values, key by key, whatever the status; any other exchange leaves them and the reply alone and returns DeadlineExceeded, Canceled, Unavailable, Internal or the marshalling error with its text; reply, error and stats trace |
| Unary.ClientTrace | pkg/rpc/client.go:233-386 | on every path: Begin, optional OutPayload, optional InPayload after it, End with the returned error |
| Unary.ServeUnary | pkg/rpc/server.go:85-152 | the response: no status and the marshalled message, or no data and the error's own code and message, Unknown for an error without a status; Begin, InPayload, optional OutPayload, End with the handler's error |
| Unary.CallIsDirect | pkg/rpc/client.go:347-385 | client and server composed are the handler called directly: its code and message (Unknown for an error without a status) and an untouched reply, or success with the reply equal to the response if and only if the response is not the zero message or the reply was fresh |
| Unary.RawCodecFaithful | pkg/rpc/client.go:248-263 | raw frames satisfy the marshalling assumptions |
| SymbolIndex.Indexer.ProcessField | pkg/rpc/reflection/serverreflection.go:174-177 | prefix and name joined by a dot, or the name alone without a prefix, lead to the file, all other keys as before |
| SymbolIndex.Indexer.ProcessEnum | pkg/rpc/reflection/serverreflection.go:164-172 | exactly the dotted paths of the enum and, below it, of its values now lead to the file |
| SymbolIndex.Indexer.ProcessMessage | pkg/rpc/reflection/serverreflection.go:142-162 | exactly the dotted paths of the message, its fields, oneofs, extensions, enums, their values and nested messages, at any depth, do |
| SymbolIndex.Indexer.ProcessFile | pkg/rpc/reflection/serverreflection.go:105-140 | the files are marked in the order of the depth-first walk from the file, cycles included, and the index is that of the marked files, the later over the earlier |
| SymbolIndex.Indexer.GetSymbols | pkg/rpc/reflection/serverreflection.go:81-103 | the first call visits the services in some order and leaves the index SymbolScan.Scan computes for that order, keyed by exactly the dotted paths that the services' files and the files they import declare, and the sorted service names; later calls change nothing |
| SymbolScan.IndexIsTheScan | pkg/rpc/reflection/serverreflection.go:105-140 | in any order, the walk marks exactly the files reached from the services' files; the index holds exactly the names they declare, each with a declaring file; it is the naive scan if names are declared once |
| SymbolNames.NamesExactly | pkg/rpc/reflection/serverreflection.go:105-184 | for every file, a string is among its names if and only if it is the package, unless empty, and the names on the path to a declaration (message, nested message, enum, value below its enum, field, oneof, extension, service, method) joined by dots |
| SymbolNames.JoinedNamed | pkg/rpc/reflection/serverreflection.go:179-184 | for a path that starts with a non-empty name that is the plain join, with the package in front if there is one |
| SymbolNames.KeysExactly | pkg/rpc/reflection/serverreflection.go:81-140 | in any order of services, the index is keyed by exactly those strings for the files the services point at and all they import, each leading to such a file that declares it |
| SymbolScan.OrderIrrelevantExactly | pkg/rpc/reflection/serverreflection.go:87-98 | for every set of services all orders of visiting them give the same index, if and only if no name is declared in two files of the process |
| SymbolScan.MarksAreReached | pkg/rpc/reflection/serverreflection.go:105-140 | the walk marks exactly the files reached from its roots along imports |
| SymbolIndex.ServiceListOrderless | pkg/rpc/reflection/serverreflection.go:87-99 | the sorted service list is the same for all orders |
| Dependencies.AcyclicRank | pkg/rpc/reflection/serverreflection.go:274-298 | the files below a root that leads to no cycle have a rank that falls along imports |
| Dependencies.TurnLowers | pkg/rpc/reflection/serverreflection.go:277-296 | a turn of the loop takes one file off the summed unrolled import trees of the queue |
| Dependencies.TraversalEndsExactly | pkg/rpc/reflection/serverreflection.go:274-298 | the queue empties from a root if and only if no chain of imports from that root leads to a cycle |
| Reflection.Session.FileDescWithDependencies | pkg/rpc/reflection/serverreflection.go:274-298 | from a root that leads to no cycle: the root first, then without duplicates exactly the reachable files not sent before; sent grows by exactly the reachable files |
| Reflection.Session.EnqueueImports | pkg/rpc/reflection/serverreflection.go:288-295 | every import that is found joins the queue in order, sent or not |
| Reflection.Session.Respond | pkg/rpc/reflection/serverreflection.go:402-476 | by kind of request: the registered file of that name, the index's file for the symbol or else the linked type's, the extension's file, the numbers, the services; NotFound exactly when there is none; errors leave the sent set alone |
| Reflection.SymbolAnswered | pkg/rpc/reflection/serverreflection.go:334-355 | over the index of the services, a request for a symbol is answered with a file that declares that dotted path whenever the services' files or their imports do |
| Reflection.Session.ServerReflectionInfo | pkg/rpc/reflection/serverreflection.go:387-485 | over any session: sent is exactly what the client was sent and closed under imports, after each answer the client holds all its root depends on, a file is repeated only as a request's root, and an unset request ends the session |
| Reflection.DeliveredClosed | pkg/rpc/reflection/serverreflection.go:274-298 | the sent set stays closed under imports |
| Descriptors.ClosedHolds | pkg/rpc/reflection/serverreflection.go:132-139 | an import-closed set of files holds everything reachable from its members |

## Left out

- The loops of `runInbox`, `ReadMsg`, `streamWorker.run` and the pumps' forwarders, which block on channels other goroutines use, are steps of the transition systems and not loops of the classes.
- Protobuf, gzip, JSON and HTTP; the NATS client and server; grpc-go; the HTTP admin; logging, interceptors, otel, connection options. Frames, messages and descriptors are datatypes.
- `clientStream.Invoke`, `Client.CloseStream`, `Server.CloseStream`, the peer nid kept from Begin and Call, request metadata on its way into the handler's context.
- The server's `SendMsg` swallows marshal errors by shadowing `err`; messages that do not marshal are not modelled.
- The streaming form of unary handlers (`serverUnaryHandler`) appears in the server stream model as a handler return that sends one payload and closes, not as a refinement of its own.
- SymbolScan.OrderIrrelevantExactly: over all sets of services of a process; for one fixed set the index may be stable although a name is declared twice.
- Pumps.NilMeansEverything: what the two streams answer is their contract in grpc-go and `clientStream`, taken as an assumption (`Conforms`).
- Panics of a handler, and frames lost to NATS slow-consumer limits.
- ServerTheorems.ConservationExactly: speaks of the stream that has taken the Call and only until it processes the half-close; frames before the Call may belong to older streams of the reply, and payloads after the half-close are ignored.
- IngressTheorems.NoLostCancellationExactly: one registration; a registration that `openIngress` inserts after `Sidecar.Close` took its snapshot is torn down only by its own closeIngress. The services, svcid and nid are plain names: non-empty tokens, no wildcards, no slash.
- Sidecars.Sidecar.OpenIngress: runs alone; its dial and NATS outcomes are parameters. Closing the egress server, HTTP admin and NATS connection in `Close` is not modelled.
- Pumps.ResultIsAnOutcome: the text of a wrapped status error is its message, without the code's name.
- Heartbeat.PongMonitor: tickers are punctual and the loop ends after a given number of ticks; stopping through heartbeatStop or the context is that end. No bound on Pong latency is claimed: Pongs wait behind a blocked Data.
- The accessors `Header()`, `Trailer()`, `setLastErr` and `removeStream`: easy members; `Header()` and `Trailer()` make an empty map of their own when there is no target.
- Headers.HeaderFreezing: publications are taken to succeed and keys to be lower-case, as metadata.New and metadata.Pairs make them; MD.Append on the client lower-cases.
- Unary.Call.InvokeOnSubject: one header and one trailer option, with targets that are not nil pointers; keys are lower-case.
- ClientOwed.TeardownIsOwed: that a goroutine inside done() gets on is the scheduler's business and not claimed.
- Subjects.StreamMatchExactly: tokens are not the wildcards themselves; NATS' refusal of empty tokens is not modelled.
- Reflection.Session.ServerReflectionInfo: the stream's receive and send errors, and the lookups by type and extension, are parameters of the session.
- Unary.CallIsDirect: metadata and deadline of the call's context are the request's metadata and the exchange's outcome.
- The sidecar's `onUnary`, error-code tables, random identifiers and field-by-field validation: easy members.
