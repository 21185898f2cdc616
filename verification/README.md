# cppmcp: a verified model

cppmcp is a C++ implementation of the Model Context Protocol: a JSON-RPC 2.0
client and server over stdio, pipes and HTTP. Sockets, HTTP parsing and JSON text
belong to libraries; the repository's own logic is a set of small concurrent
state machines and a few string and tree algorithms. This project models those
and proves their central properties for all inputs and all runs.

| area | modules |
|---|---|
| client request correlation | `PendingRequests`, `ClientModel`, `ClientTheorems`, `ClientGuarantees`, `ClientOrphans`, `ClientProgress`, `ClientEffects`, `ClientHandshake`, `ClientWire`, `ClientObjects` |
| asynchronous write queue | `WriteQueue` |
| Streamable HTTP sessions | `HttpSessions`, `HttpLifecycle`, `HttpRouting`, `HttpGuarantees`, `HttpReplies`, `HttpSlots`, `HttpQueues`, `HttpTransportObject`, `LockDiscipline` |
| JSON-RPC and batches | `Json`, `JsonRpc`, `Batch` |
| schema validation | `SchemaValidation` |
| lists: paging and cache | `Decimal`, `ListPaging`, `ListCache`, `ListReplies` |
| resource templates | `UriTemplate`, `UriTemplateTheorems` |
| printers and parsers | `WindowsQuoting`, `SseFraming`, `SseTheorems`, `SseChunks` |

How it is built:

- A protocol is a state datatype, a `Step` datatype and an `Apply` function; a run
  is any sequence of steps. User threads, the peer, timers and other sockets are
  steps, so a statement about all step sequences covers every interleaving and an
  adversarial peer. Lock sections are the atomic steps of the write queue and of
  the session table; strand tasks are those of the client, except that an accepted
  `initialize` stores its flags and sends `notifications/initialized` in separate
  steps between which a user thread may submit.
- Objects that the source updates in place are classes (`PendingRequest`,
  `McpClient`, `AsyncWriteQueue`, `SessionTable`, `McpServer`, `ListServer`,
  `SseReader`); each method's new state is tied to the function that the theorems
  are about. Loops of the source are loops here.
- What an operation answers and whom it affects is stated apart from its body: by
  reading the reply, the pattern, the frame or the command line back, by a table or
  a set of names written out, or by the effect of the event on the whole state.
- Where a promise turned out not to hold on all inputs, the exact condition is
  proved as an equivalence (names ending in `Exact`), often next to a concrete
  failing run.

What the model shows to be different from comments or documentation of the source:

- `finish` is described as guarded by a compare-and-swap (src/client.cpp:359-361).
  It is an unconditional exchange (src/pending_request.cpp:46): promise, outcome
  and callbacks stay those of the first call, but `state()` can be overwritten
  (`ClientGuarantees.StateCanBeOverwritten`).
- A numeric custom progress token is rejected only when a progress callback is
  set (src/client.cpp:221-240). Without one it passes, and if it is another
  request's id that request can lose its place in the table: on a concrete run a
  reply is misrouted and the rightful request waits for ever
  (`ClientOrphans.OrphanRun`). A request whose id is nobody's token is safe on
  every run (`ClientOrphans.OwnEntry`), and `ClientOrphans.LoseExact` gives the
  exact condition.
- `on_error_` of the write queue is called outside the lock, so it may run after
  `shutdown` although it was decided before (`WriteQueue.LateErrorExact`).
- The release hook is documented as always running (src/http_transport.cpp:200-203
  and 522-523). Five paths clear `active` without it; exactly those lose the slot,
  for good (`HttpSlots.SlotsExact`, `HttpSlots.ClearExact`,
  `HttpSlots.LostForever`, with a run in `HttpSlots.SlotLost`), and a capped server
  stops accepting for ever exactly when all its slots were lost
  (`HttpSlots.LockoutExact`).
- With the CloseOnError policy a push re-locks `sessions_mutex_` exactly when some
  queue behind an active stream lacks room for all the copies it gets; one
  connection may carry several streams (`LockDiscipline.PushExact`,
  `LockDiscipline.SecondCopyRelocks`).
- A malformed message whose integer id equals that of an open server-initiated
  request gets no response and completes that request
  (`Batch.ContestedExact`); an integer id from 2^63 on is echoed changed
  (`JsonRpc.EchoExact`).
- The offset arithmetic of list pages wraps at 2^64 and can yield an inverted
  iterator range (`ListPaging.BadRangeExact`).
- A cached list can outlive the registry it came from when `run()` copies the
  registries again (`ListCache.FreezeExact`, `ListCache.StaleExact`). Registration
  is refused while running and `stop()` ends the io_context for good, so with the
  transports of the repository this needs a `run()` whose start throws after a list
  was cached (`ListCache.FailedStartStale`); without that no delivered reply is ever
  stale (`ListCache.OrdinaryTransparent`). A user's transport that delivers on its
  own thread can produce it by stop, register, connect and run
  (`ListCache.OwnThreadStale`).
- The client's SSE reader keeps no partial line, so a stream arrives intact exactly
  when no read ends strictly inside a data line (`SseChunks.AnyCutExact`).
- The comment above `uri_template_to_regex` speaks of named captures; the groups
  are positional, and the names come from a second scan that agrees with the
  first only on some templates (`UriTemplate.ScannersAgreeExact`).

## Model

| member | source | states |
|---|---|---|
| `PendingRequests.FinishExactlyOnce` | src/pending_request.cpp:45-61 | finishing keeps "at most one promise value, at most one terminal callback, both with the first outcome, on_complete exactly for a success and on_error for every other outcome where they are set", makes `state()` agree with the outcome, and changes nothing but `state` on a finished request |
| `PendingRequests.ProgressExactlyOnce` | src/pending_request.cpp:63-88 | progress reaches the callback of a waiting request that has one, with the numbers sent, and changes nothing otherwise; no progress follows a terminal event |
| `ClientTheorems.RunOutcomes` | src/client.cpp:195-373 | every run step of client, peer, timers and user threads keeps exactly-once for every request, and logs only grow |
| `ClientTheorems.ExactlyOnceOutcome` | src/pending_request.cpp:45-132 | on every run from the start, promise, outcome and terminal callback of each request are set at most once, agree, never change afterwards, and the callback that ran is on_complete for a success and on_error otherwise, where the request has it |
| `ClientTheorems.CallbackOfSubmission` | src/client.cpp:244-251 | in every continuation of every run, once the request made of a submission is finished, the callback that ran is the one of the submission: its on_complete iff it succeeded, its on_error iff it did not, none if it gave none |
| `ClientTheorems.RegisterExact` | src/client.cpp:267-272 | registering keeps the table invariant (no numeric key names another request) if and only if the token is null, a string or the request's own id; what that costs the others is `ClientOrphans.LoseExact` |
| `ClientTheorems.SubmissionGuard` | src/client.cpp:218-242 | exactly which submissions produce such a token: the numeric custom token without a progress callback is the gap |
| `ClientTheorems.FinishKeyCorrelated` | src/client.cpp:274-318 | completing any key finishes exactly the request it names and keeps the table correlated, even with shared string tokens |
| `ClientTheorems.RunSound` | src/client.cpp:195-373 | the correlation invariant over any stretch of any run with good tokens |
| `ClientTheorems.Correlation` | src/client.cpp:244-318 | on every run with good tokens each registered waiting request is in the table under its id and integer keys map to their own request |
| `ClientOrphans.OwnEntry` | src/client.cpp:267-318 | on every run, whatever tokens others use, a request whose id is nobody else's token is in the table under it from registration until it finishes |
| `ClientOrphans.OwnIsServed` | src/client.cpp:274-373 | such a request is finished, alone, by a reply to its id, and finished by a drain |
| `ClientOrphans.LoseExact` | src/client.cpp:221-240 | with everything registered and nothing under way, a waiting request can still lose its entry without further submissions if and only if another request in the table carries its id as token |
| `ClientOrphans.AbandonedForever` | src/client.cpp:668-677 | after stop and drain nothing changes any request any more |
| `ClientOrphans.OrphanRun` | src/client.cpp:221-240 | a concrete run: the reply to a plain request finishes the one that took its id as token, and after stop the plain request waits in every continuation |
| `ClientGuarantees.OnlyTheAddressee` | src/client.cpp:274-356 | a reply, timeout or cancel for id n changes no other request |
| `ClientGuarantees.ReplyFinishesAddressee` | src/client.cpp:274-318 | a reply to a registered waiting request gives it that outcome and removes its key |
| `ClientGuarantees.DrainFinishesAll` | src/client.cpp:358-373 | a drain empties the table, fails every registered waiting request with its reason and touches no other |
| `ClientGuarantees.StaleExact` | src/client.cpp:274-318 | a finished request stays in the table if and only if it was finished through its string token |
| `ClientGuarantees.RunQuiet` | src/client.cpp:274-318 | while no reply id equals a token, no finished request stays in the table, over any run |
| `ClientGuarantees.StableStates` | src/pending_request.cpp:45-61 | then a terminal `state()` never changes again, and always agrees with the outcome |
| `ClientGuarantees.StateCanBeOverwritten` | src/pending_request.cpp:45-61 | without that condition a concrete run turns Errored into Succeeded while promise and outcome keep the error |
| `ClientGuarantees.UnstableExact` | src/pending_request.cpp:45-61 | between messages, a terminal state can still change through replies that use no token if and only if a finished request is still in the table |
| `ClientHandshake.RunHandshake` | src/client.cpp:208-329 | the handshake invariant over any stretch of any run |
| `ClientHandshake.HandshakeOrder` | src/client.cpp:280-329 | on every run each ordinary request on the wire is preceded by `notifications/initialized`, and a connected client holds a result with a supported version |
| `ClientGuarantees.ProgressReachesHolder` | src/client.cpp:419-440 | a progress notification changes at most the log of a waiting request that holds the token or has it as its id |
| `ClientProgress.TokenExact` | src/client.cpp:218-242 | which token a submission gets, for every combination of callback and custom token |
| `ClientProgress.RunKey` | src/client.cpp:253-318 | on every run the table entry under a token that nobody else has as id or token is its holder's, and is there while the holder waits |
| `ClientProgress.ProgressArrives` | src/client.cpp:419-440 | on every run, a progress notification for such a token reaches the callback of its registered waiting holder, and only that |
| `ClientEffects.ErrorReplyEnds` | src/client.cpp:394-417 | delivered to an idle strand, an error reply ends its request with that code and message in outcome, promise and state, and no other request changes |
| `ClientEffects.SuccessReplyEnds` | src/client.cpp:394-417 | the same for the result of an ordinary request |
| `ClientEffects.InitializeAccepted` | src/client.cpp:280-329 | a supported initialize result connects the client, stores the result, sends `notifications/initialized` and ends the request with success |
| `ClientEffects.InitializeRefused` | src/client.cpp:280-329 | any other initialize result ends the request with an invalid-request error and connects and sends nothing |
| `ClientEffects.TimerEnds` | src/pending_request.cpp:91-107 | an expiring timer ends a timed waiting request with a timeout and leaves an untimed one alone |
| `ClientEffects.CancelEnds` | src/client.cpp:331-355 | a cancel is sent with its reason and ends the waiting request with that reason, or the default one |
| `ClientEffects.LateChangesNothing` | src/client.cpp:331-355 | a timer or cancel after the end changes nothing |
| `ClientEffects.DropEnds` | src/client.cpp:615-677 | a lost transport, a disconnect or the first stop ends every registered waiting request and no other, with its own reason, and only stop closes the client for good |
| `ClientEffects.StoppedForever` | src/client.cpp:208-213 | after stop no run admits anything |
| `ClientEffects.StopOnce` | src/client.cpp:668-671 | a second stop changes nothing, and a connect that gives up takes back the connection only |
| `ClientEffects.AdmitExact` | src/client.cpp:208-213 | a submission is admitted if and only if the client is not stopping and is connected or the request is an initialize |
| `ClientEffects.AllocateTakesOne` | src/client.cpp:218-242 | drawing an id takes one admitted submission and makes one new waiting request of it |
| `ClientEffects.NoneForgotten` | src/client.cpp:195-242 | on every run the admitted submissions are exactly those that have an id and those that still await one |
| `ClientEffects.SentInOrder` | src/client.cpp:252-265 | on every run the requests on the wire are the posted ones in the order of posting, up to those still on the strand |
| `ClientEffects.WireTells` | src/client.cpp:218-265 | on every run each request on the wire names its own method, and its token exactly when it has a progress callback |
| `ClientWire.RunWire` | src/client.cpp:253-355 | the wire invariant over any stretch of any run with good tokens |
| `ClientWire.WireExact` | src/client.cpp:253-355 | on every run each registered request was sent exactly once and no other was; exactly the requests whose outcome is a cancellation had one cancel notification sent, after them |
| `ClientObjects.PendingRequest.FinishWith` | src/pending_request.cpp:45-61 | the object's new state is `Finish` of the old one, including the callbacks dispatched |
| `ClientObjects.PendingRequest.Progress` | src/pending_request.cpp:63-88 | the object's new state is `DeliverProgress` of the old one |
| `ClientObjects.McpClient.SubmitCheck` | src/client.cpp:208-213 | accepts exactly the admissible submissions and records them |
| `ClientObjects.McpClient.SubmitAllocate` | src/client.cpp:218-242 | draws the next id and builds a fresh request object under it |
| `ClientObjects.McpClient.SubmitPost` | src/client.cpp:252-264 | appends the registration task to the strand |
| `ClientObjects.McpClient.Stop` | src/client.cpp:668-677 | the first call sets the flag and posts a drain; later calls change nothing |
| `ClientObjects.McpClient.RegisterPendingObject` | src/client.cpp:253-272 | stores the request under its id and token and sends it, as the model's registration does |
| `ClientObjects.McpClient.EraseAndFinish` | src/client.cpp:313-318 | erases the key and the token and finishes the named object only |
| `ClientObjects.McpClient.RequestCancel` | src/client.cpp:331-355 | cancels only a waiting request, after sending the notification |
| `ClientObjects.McpClient.FailAllPending` | src/client.cpp:358-373 | the loop over the table fails each waiting object once, even when keyed twice, and empties the table |
| `ClientObjects.McpClient.OnTransportMessage` | src/client.cpp:394-417 | routes replies and progress to the model's message step |
| `ClientObjects.McpClient.RunStrand` | src/client.cpp:195-373 | one strand turn on the objects is one strand step of the model |
| `WriteQueue.AsyncWriteQueue.EnqueueLocked` | include/cppmcp/async_write_queue.hpp:44-76 | the enqueue section: accept, drop or close by policy and cap, and whether to arm |
| `WriteQueue.AsyncWriteQueue.ShutdownLocked` | include/cppmcp/async_write_queue.hpp:80-88 | the shutdown section empties queue and counter and returns what was discarded |
| `WriteQueue.AsyncWriteQueue.ArmLocked` | include/cppmcp/async_write_queue.hpp:96-118 | the arming section takes the oldest item or gives up the flag |
| `WriteQueue.AsyncWriteQueue.CompleteLocked` | include/cppmcp/async_write_queue.hpp:120-147 | the completion section: next write, idle, or one error |
| `WriteQueue.RunSound` | include/cppmcp/async_write_queue.hpp:44-147 | all queue invariants over any stretch of any interleaving |
| `WriteQueue.EveryInterleaving` | include/cppmcp/async_write_queue.hpp:44-147 | single flight, no lost wakeup, exact byte count within the cap, FIFO conservation and error-once in every interleaving, under both policies |
| `WriteQueue.OverflowExact` | include/cppmcp/async_write_queue.hpp:44-76 | an item is taken if and only if the queue is open and the bytes with it stay within the cap; otherwise DropNewest changes nothing and CloseOnError closes and decides one error call |
| `WriteQueue.ShutdownExact` | include/cppmcp/async_write_queue.hpp:78-88 | a shutdown discards the queued items and leaves the write under way alone |
| `WriteQueue.AfterShutdown` | include/cppmcp/async_write_queue.hpp:78-88 | after shutdown nothing is accepted or issued and no error call is decided |
| `WriteQueue.LateErrorExact` | include/cppmcp/async_write_queue.hpp:120-133 | the error callback can run after shutdown if and only if it was decided before |
| `WriteQueue.LateErrorHappens` | include/cppmcp/async_write_queue.hpp:52-71 | a concrete run in which that is the case |
| `WriteQueue.Drains` | include/cppmcp/async_write_queue.hpp:96-147 | from every sound active state, completions alone write everything accepted, in order |
| `WriteQueue.FitsNext` | include/cppmcp/async_write_queue.hpp:44-76 | there is room for n + 1 copies exactly when one does not overflow and n fit after it, counting the item an idle queue hands on at once |
| `HttpLifecycle.RunLifecycle` | src/http_transport.cpp:684-789 | the session invariant over any stretch of any run |
| `HttpLifecycle.SessionSafety` | src/http_transport.cpp:684-789 | in every reachable state the cap holds despite interleaved creators, messages reached the server only for committed sessions, and a failed initialize left none; that each message to a live session does reach it is `HttpReplies.PostExact` |
| `HttpReplies.PostExact` | src/http_transport.cpp:707-725 | a message reaches the server if and only if its session is listed and initialized, and is then not yet answered; 404 exactly when it is not listed, 400 when it is listed and not initialized |
| `HttpReplies.InitializeExact` | src/http_transport.cpp:691-704 | an initialize gets a new, empty, uninitialized session if and only if the cap leaves room; otherwise 429 and nothing else |
| `HttpReplies.InitializeEnds` | src/http_transport.cpp:775-789 | the session is committed if and only if the handler did not throw and the first body is no error; otherwise it is gone |
| `HttpReplies.EmitExact` | src/http_transport.cpp:743-764 | the first emission is the HTTP body on the POST's connection, every further one goes to the streams of its session |
| `HttpReplies.PushReaches` | src/http_transport.cpp:1128-1140 | a frame is offered to a connection once per listed active stream on it |
| `HttpReplies.GetExact` | src/http_transport.cpp:867-927 | a GET for a listed session opens a stream of it on that connection, sends the headers, lists it last and touches the session |
| `HttpReplies.GetUnknown` | src/http_transport.cpp:873-878 | a GET for an unknown session is a 404 that opens and lists nothing |
| `HttpReplies.DisconnectExact` | src/http_transport.cpp:891-905 | a broken connection takes the stream it opened last off its session's list, once, and touches no other list |
| `HttpReplies.CloseExact` | src/http_transport.cpp:956-963 | closing a removed stream shuts its connection's queue and runs the connection's hooks once |
| `HttpReplies.QueueErrorExact` | src/http_transport.cpp:182-209 | an error call that the queue owes takes the connection down |
| `HttpReplies.DeleteExact` | src/http_transport.cpp:930-967 | DELETE removes exactly the session named, silences its listed streams and answers 200; 404 and no change for an unknown one |
| `HttpReplies.SweepExact` | src/http_transport.cpp:1091-1126 | a sweep keeps exactly the sessions touched within the timeout |
| `HttpReplies.StopExact` | src/http_transport.cpp:441-473 | stop leaves no session |
| `HttpReplies.RunFresh` | src/http_transport.cpp:728-732 | a session that is listed and touched at t stays so, at t or later, on every run without its removal by name and without a sweep more than the timeout after t |
| `HttpReplies.TouchedSurvives` | src/http_transport.cpp:728-732 | so a message that touched its session keeps it through every such run |
| `HttpRouting.PushAllExact` | src/http_transport.cpp:1128-1140 | each connection's queue accepts exactly as many frames as there are listed active streams on it, up to the room its cap leaves, and nothing goes elsewhere |
| `HttpRouting.StepHome` | src/http_transport.cpp:867-927 | every step keeps "frames of a session are only on connections of its own streams" |
| `HttpGuarantees.StepBodies` | src/http_transport.cpp:750-797 | every step keeps "each POST has written at most one body" |
| `HttpGuarantees.StreamRouting` | src/http_transport.cpp:867-927 | in every reachable state each stream is in at most one list, its own session's, frames stay home and bodies are single |
| `HttpGuarantees.RemoveSilences` | src/http_transport.cpp:937-966 | removal deactivates exactly the listed streams and empties the lists |
| `HttpGuarantees.RemovedForever` | src/http_transport.cpp:1091-1126 | a removed session never returns, none of its frames is written again, a deactivated stream stays so |
| `HttpGuarantees.LateStreamExact` | src/http_transport.cpp:867-927 | a removed session can list an active stream again if and only if a GET had already found it |
| `HttpSlots.SlotsExact` | src/http_transport.cpp:498-529 | on every run an inactive connection has released its slot, once, if and only if no handler cleared its flag; the counter is the number of unreleased connections and respects the cap |
| `HttpSlots.ClearExact` | src/http_transport.cpp:538-597 | a step loses the slot of an active connection exactly when it turns a request away by writing the flag, or is a GET for an unknown session |
| `HttpSlots.LostForever` | src/http_transport.cpp:198-209 | no continuation releases a lost slot |
| `HttpSlots.SlotLost` | src/http_transport.cpp:873-878 | a concrete run that loses one |
| `HttpSlots.LockoutExact` | src/http_transport.cpp:498-512 | a capped server can ever accept another connection if and only if fewer slots were lost than it has |
| `HttpQueues.WireOrder` | src/http_transport.cpp:176-196 | on every run each connection hands its socket exactly what the handlers enqueued and the queue accepted, in order, one write at a time |
| `HttpQueues.WireDrains` | src/http_transport.cpp:176-196 | on every run, while a connection's queue is open, its own turns alone bring everything the handlers enqueued to the socket |
| `HttpQueues.ClosedIsSilent` | src/http_transport.cpp:956-963 | closing a stream's connection ends its output for good |
| `HttpTransportObject.SessionTable.PushToSession` | src/http_transport.cpp:1128-1140 | the loop offers the frame to the queues as the model's push does, and does nothing for an unknown session |
| `HttpTransportObject.SessionTable.DropSession` | src/http_transport.cpp:937-966 | the loop over one session's streams deactivates them all and empties its list |
| `HttpTransportObject.SessionTable.DeleteSession` | src/http_transport.cpp:937-966 | removes a known session and reports an unknown one |
| `HttpTransportObject.SessionTable.SweepSessions` | src/http_transport.cpp:1091-1126 | the sweep removes exactly the sessions idle for longer than the timeout |
| `HttpTransportObject.IdleIsExpired` | src/http_transport.cpp:1091-1126 | the sessions the loop removes are the ones the model's sweep removes |
| `LockDiscipline.PushExact` | src/http_transport.cpp:1128-1140 | a push or broadcast never acquires a held lock if and only if every CloseOnError queue behind an active stream has room for as many copies as that connection gets |
| `LockDiscipline.SecondCopyRelocks` | src/http_transport.cpp:891-896 | two streams on one connection: one copy passes, the second relocks |
| `LockDiscipline.DeleteUnknownExact` | src/http_transport.cpp:937-953 | the same for the 404 written under the lock |
| `LockDiscipline.DropNewestNeverRelocks` | src/http_transport.cpp:893-896 | with DropNewest queues no push and no DELETE relocks, whatever is queued |
| `LockDiscipline.RemovalNeverRelocks` | src/http_transport.cpp:954-966 | DELETE, sweep and stop close streams without relocking, under either policy |
| `LockDiscipline.WriteErrorNeverRelocks` | src/http_transport.cpp:198-209 | write-error handling, which ends in the re-locking disconnect handler, holds no lock when it gets there |
| `LockDiscipline.EnqueueTakes` | include/cppmcp/async_write_queue.hpp:44-76 | an enqueue locks its queue once, twice when it arms an idle queue, and reaches `sessions_mutex_` exactly in the relocking case |
| `LockDiscipline.CloseAllTakes` | src/http_transport.cpp:954-966 | closing streams locks each queue as often as it is listed, takes `sessions_mutex_` once per connection that still has its hook, and leaves all of them inactive |
| `LockDiscipline.RemovalTakes` | src/http_transport.cpp:937-966 | a removal is one section of `sessions_mutex_` followed by exactly those |
| `LockDiscipline.WriteErrorTakes` | src/http_transport.cpp:198-209 | a failed write reaches the hook if and only if it is the first to close the open queue of a connection that has one |
| `Json.SameIsNormEqual` | src/server.cpp:379 | the library's value equality is equality of canonical forms |
| `SchemaValidation.SchemaValidate` | src/server.cpp:346-417 | terminates and returns the empty string if and only if the value conforms, whose meaning keyword by keyword is in the `Exact` rows below; otherwise the message blames the first failing location, keys in order and elements by index |
| `SchemaValidation.BlameUnique` | src/server.cpp:346-417 | location and message are determined by value, schema and path |
| `SchemaValidation.CheckLocal` | src/server.cpp:350-395 | empty exactly when type, enum and required hold here; otherwise the message of the first that fails |
| `SchemaValidation.OneBasicType` | src/server.cpp:353-361 | every value has exactly one of the six basic types, the one of its constructor ("string" for strings, "boolean" for booleans, ...), and "integer" is exactly the integers |
| `SchemaValidation.TypeNames` | src/server.cpp:353-361 | the seven type names admit exactly the kinds of values in the table of JSON Schema; any other name admits everything |
| `SchemaValidation.NamedTypeExact` | src/server.cpp:346-361 | a schema that only names a type accepts exactly the values of the table |
| `SchemaValidation.PropertiesExact` | src/server.cpp:396-406 | `properties` alone accepts exactly the values whose named members conform, and everything that is no object |
| `SchemaValidation.ItemsExact` | src/server.cpp:408-415 | `items` alone accepts exactly the arrays whose elements all conform, and everything that is no array; a non-object under it is ignored |
| `SchemaValidation.EnumExact` | src/server.cpp:376-387 | `enum` alone accepts exactly the values equal, as JSON, to an alternative |
| `SchemaValidation.RequiredExact` | src/server.cpp:388-395 | `required` alone accepts exactly the objects that have every member named by a string, and everything that is no object |
| `SchemaValidation.NoSchema` | src/server.cpp:347-349 | a schema that is no object accepts everything |
| `SchemaValidation.PathIsShown` | src/server.cpp:396-415 | the path of a message is its location, keys after dots and indices in brackets |
| `SchemaValidation.BeforeExact` | src/server.cpp:397 | keys are visited in lexicographic order: the first difference decides, and a prefix comes first |
| `SchemaValidation.CheckType` | src/server.cpp:350-375 | the type loop, which re-enters validation with a fresh schema for each alternative, decides the type relation, which `SchemaValidation.NamedTypeExact` and `SchemaValidation.TypeIsFlat` tie to the table of types |
| `SchemaValidation.FindInEnum` | src/server.cpp:376-387 | true if and only if some alternative equals the value |
| `SchemaValidation.FindMissing` | src/server.cpp:388-395 | the first required string that is not a key, or that there is none |
| `SchemaValidation.ValidateProperties` | src/server.cpp:396-406 | decides conformance of an object, visiting keys in order, and blames the first failing one |
| `SchemaValidation.ValidateItems` | src/server.cpp:408-415 | decides conformance of an array and blames its first failing element |
| `SchemaValidation.ConformsEverywhere` | src/server.cpp:346-417 | conformance means that every location reachable through properties and items passes its type, enum and required checks |
| `SchemaValidation.TypeIsFlat` | src/server.cpp:362-370 | nested type arrays mean the set of their leaves |
| `SchemaValidation.BlameIsReal` | src/server.cpp:346-417 | a blamed location exists, fails, and the message is that of its first failing check at that path |
| `JsonRpc.ParseExact` | src/jsonrpc.cpp:40-122 | the parser's classes are exactly the declared request, notification and response shapes, and id, method, params and result are the ones of the message |
| `JsonRpc.MalformedExact` | src/jsonrpc.cpp:40-122 | every other message becomes an error: its code, its message, and its id where that is usable |
| `JsonRpc.WrapExact` | include/cppmcp/common.hpp:30-40 | an integer id becomes the int64 equal to it modulo 2^64 |
| `JsonRpc.EchoExact` | include/cppmcp/common.hpp:30-47 | an id is echoed unchanged if and only if it is null, a string or an integer within int64 |
| `JsonRpc.SerializeRoundTripExact` | src/jsonrpc.cpp:249-267 | parsing undoes serializing if and only if the params are structured and the id is allowed |
| `JsonRpc.SuccessRoundTripExact` | src/jsonrpc.cpp:218-224 | a success response reads back if and only if its id fits |
| `JsonRpc.ErrorReads` | src/jsonrpc.cpp:226-236 | an error response reads back with its id, code, message and data, and has no other field |
| `Batch.McpServer.OnMessage` | src/server.cpp:419-465 | the state, the answer and what goes to the pool, as the model's reaction |
| `Batch.McpServer.HandlePostBatch` | src/http_transport.cpp:804-864 | with or without a pool the body is the in-order list of synchronous answers and nothing is deferred; status and body of the empty batch, the missing header, the unknown and the uninitialized session, and 202 exactly for no answers |
| `Batch.DeferralExact` | src/server.cpp:422-437 | a message is answered as without a pool if and only if it is not a request for tools/call, resources/read or prompts/get outside the guard |
| `Batch.DeferredSame` | src/server.cpp:427-436 | a deferred request answers, when run, exactly as it would then have answered synchronously |
| `Batch.McpServer.RunPosted` | src/server.cpp:428-435 | a worker runs the oldest posted request and its response goes out |
| `Batch.DispatchExact` | src/server.cpp:518-545 | a request reaches its handler if and only if it is an initialize, or the server is initialized and the method is one of the eleven written out; ping, uninitialized and unknown methods are answered as coded |
| `Batch.ErrorsExact` | src/server.cpp:467-477 | what a peer reads when a handler refuses or throws: code, message and data |
| `Batch.NotificationExact` | src/server.cpp:479-495 | a notification is never answered and changes the initialized flag only, if it is that notification |
| `Batch.ReplyExact` | src/server.cpp:1172-1202 | a result for an open server request closes it and goes to its callback; for any other id it is dropped |
| `Batch.MalformedAnswer` | src/server.cpp:446-464 | an answered malformed element is told the error found in it, under its id |
| `Batch.BatchIds` | src/http_transport.cpp:829-848 | every body element is a well-shaped response and their ids are exactly the ids owed, in batch order |
| `Batch.BatchAnswersTheBatch` | src/http_transport.cpp:829-863 | without contested ids the answered ids depend on the batch alone, and the status is 202 if and only if it holds only notifications and success responses |
| `Batch.ResultExact` | src/server.cpp:467-477 | a response reads as a result exactly when the handler returned it; refusals and every kind of exception read as errors |
| `Batch.HandlersSilentBeforeInitialized` | src/server.cpp:518-535 | until notifications/initialized arrives, no sequence of messages lets any handler but that of initialize affect answers or state |
| `Batch.ContestedExact` | src/server.cpp:446-464 | a malformed element with an integer id completes the open server request of that number and gets no answer, if there is one; otherwise it is answered and changes nothing |
| `Batch.GuardNeededExact` | src/server.cpp:273-279 | with a pool and no guard the body is the same if and only if the batch holds no deferrable request |
| `ListPaging.BadRangeExact` | src/server.cpp:636-638 | the iterator range is inverted if and only if offset plus size wraps into the list |
| `ListPaging.NextDecodes` | src/server.cpp:617-620 | every issued cursor is decimal and decodes to its offset |
| `ListPaging.WalkIsTiles` | src/server.cpp:613-644 | following cursors, with text and wrapping arithmetic, cuts the list at multiples of the size |
| `ListPaging.WalkComplete` | src/server.cpp:613-644 | the walk takes max(1, ceil(n/p)) pages, all but the last full, whose concatenation is the list |
| `Decimal.TextRoundTrip` | src/server.cpp:641 | decimal text reads back as the number |
| `Decimal.TextExact` | src/server.cpp:641 | the decimal digits, without leading zeros |
| `ListReplies.PageReplyReads` | src/server.cpp:639-644 | a page reply reads back as exactly its items, under the key of its list, and its cursor, under nextCursor |
| `ListReplies.PagedReply` | src/server.cpp:613-644 | from any offset in the list a reply holds a full page and a cursor that decodes to the next offset, or the rest and no cursor |
| `ListReplies.RepliesAreTiles` | src/server.cpp:613-644 | sending back the string found under nextCursor yields replies that read as the list cut at multiples of the size |
| `ListReplies.RepliesComplete` | src/server.cpp:607-651 | starting without a cursor the replies are max(1, ceil(n/p)) many, all but the last full, and their arrays under "tools", "resources", "resourceTemplates" or "prompts" concatenate to the list |
| `ListReplies.WholeReply` | src/server.cpp:626-645 | without paging one reply holds the whole list and no cursor |
| `ListReplies.CursorErrors` | src/server.cpp:613-625 | with paging a cursor is an invalid-params error if and only if it is not all digits, and an internal error if and only if it is a number from 2^64 on |
| `ListReplies.ProducesOwnList` | src/server.cpp:653-681 | each list request produces its own list: frozen copy, live registry or the user's handler |
| `ListReplies.InvalidateExact` | src/server.cpp:156-167 | after an invalidation or a new page size the next reply of every kind is computed afresh |
| `ListReplies.RememberedExact` | src/server.cpp:626-650 | the first reply is given again if and only if caching is on, the registries are frozen and there is no paging |
| `ListReplies.DeliveryExact` | src/server.cpp:169-235 | when messages are delivered after connect, each step of run and a failed start |
| `ListReplies.StopExact` | src/server.cpp:237-258 | stop ends deliveries, keeps the frozen copies, and a further run alone does not bring deliveries back |
| `ListCache.CacheTransparent` | src/server.cpp:626-650 | after every run of lookups, delayed fills, invalidations, size changes, registrations and safe freezes each reply is the uncached one and every filled field is fresh |
| `ListCache.RunFresh` | src/server.cpp:156-167 | the freshness invariant over any such run |
| `ListCache.FreezeExact` | src/server.cpp:175-190 | `run()` keeps the cache fresh if and only if it changes no registry behind a filled field |
| `ListCache.StaleExact` | src/server.cpp:175-190 | after `run()` all replies are the uncached ones if and only if it changed no cached list |
| `ListCache.OrdinaryTransparent` | src/server.cpp:40-46 | with io_context transports every delivered list reply is the uncached one, over every run with registrations, stops and further runs, unless a start fails once a list was cached |
| `ListCache.FailedStartStale` | src/server.cpp:203-211 | a whole run with an io_context transport and a failed start that serves a stale list |
| `ListCache.OwnThreadStale` | src/server.cpp:237-258 | a whole run with a transport on its own thread that serves a stale list after stop and a second run |
| `ListCache.HandlerGoesStale` | src/server.cpp:653-664 | a user list handler's first answer sticks |
| `ListCache.ListServer.HandleListRequest` | src/server.cpp:607-651 | reply and cache after an uninterrupted request; what the reply tells a client is in `ListReplies` |
| `ListCache.ListServer.LookupSection` | src/server.cpp:613-645 | everything up to the fill, with the fill left in flight; what the reply tells a client is in `ListReplies` |
| `ListCache.ListServer.FillSection` | src/server.cpp:646-649 | the fill, whatever happened since |
| `ListCache.ListServer.SetListPageSize` | src/server.cpp:156-159 | sets the size and clears the cache |
| `ListCache.ListServer.FreezeRegistries` | src/server.cpp:175-190 | copies the live registries and marks them frozen |
| `ListCache.ListServer.RegisterSource` | src/server.cpp:48-55 | refused while running |
| `ListCache.ListServer.StopServer` | src/server.cpp:237-258 | detaches the transport and ends the loop, once |
| `UriTemplate.UriTemplateToRegex` | src/server.cpp:284-318 | the loop's pattern is the rendering of the template's tokens, which reads back character by character by `UriTemplate.PatternReadsBack` |
| `UriTemplate.TokensExact` | src/server.cpp:296-315 | for every template, balanced or not: a character is a literal exactly when it is no brace and no '{' was the last brace before it, and a '}' gives a variable exactly when the last brace before it is a '{' with text after it |
| `UriTemplate.EscapeExact` | src/server.cpp:289-293 | exactly the syntax characters of ECMAScript patterns are escaped |
| `UriTemplate.WordExact` | src/server.cpp:818 | the characters that start a name, by code |
| `UriTemplate.CollectNames` | src/server.cpp:810-821 | the second loop collects the names of the second scan |
| `UriTemplate.PatternReadsBack` | src/server.cpp:289-317 | a reader of group, class and escape syntax that knows nothing of the builder reads the pattern as one capture group per variable, excluding exactly '/', '?' and '#', and one character per literal |
| `UriTemplate.MatchesIsRegex` | src/server.cpp:804-809 | matching by the groups as read, with the sets they exclude, is the matching that the other theorems are about |
| `UriTemplate.ScannersAgreeExact` | src/server.cpp:809-824 | for every template the collected names are the variables of the groups, in order, if and only if the template is aligned |
| `UriTemplate.MatchesIsFill` | src/server.cpp:804-809 | matching is the inverse of filling the groups |
| `UriTemplateTheorems.UniqueExact` | src/server.cpp:804-809 | every URI matches in at most one way if and only if no segment holds two variables |
| `UriTemplateTheorems.SeparatedIsUnique` | src/server.cpp:804-809 | variables followed by the end or by '/', '?' or '#' satisfy that condition |
| `UriTemplateTheorems.ExpandIsFill` | src/server.cpp:804-828 | expanding a template is filling its pattern |
| `UriTemplateTheorems.BindVariables` | src/server.cpp:822-824 | the loop binds names to groups in order |
| `UriTemplateTheorems.BindExact` | src/server.cpp:822-824 | a name is bound if and only if it has a group, to the group of its last occurrence |
| `UriTemplateTheorems.MatchUndoesExpansion` | src/server.cpp:804-828 | the expanded URI matches, uniquely, and extraction returns the variables put in |
| `UriTemplateTheorems.ScanUndoesSource` | src/server.cpp:284-318 | scanning undoes printing for every well-formed template, and both scanners agree on it |
| `UriTemplateTheorems.WellFormedRoundTrip` | src/server.cpp:284-318 | for well-formed templates whose variables end at the end or at '/', '?' or '#': exactly the values put in match the expanded URI, and extraction returns them |
| `WindowsQuoting.QuoteWindowsArg` | src/process.cpp:91-113 | the loop with its backslash counter computes the quoting function |
| `WindowsQuoting.QuoteExact` | src/process.cpp:92-94 | an argument goes unquoted if and only if it is not empty and holds no blank, tab, line feed, vertical tab or quote |
| `WindowsQuoting.BuildCommandLine` | src/process.cpp:182-186 | program and arguments quoted and joined by spaces |
| `WindowsQuoting.ParseQuote` | src/process.cpp:91-113 | the argv rules read one quoted argument back, whatever follows |
| `WindowsQuoting.ParseTail` | src/process.cpp:182-186 | the arguments after the program name read back exactly, for every list |
| `WindowsQuoting.ProgramRoundTrip` | src/process.cpp:182-186 | the program name, parsed by its own rule, survives exactly when it has no quote and no backslash before the added quote |
| `WindowsQuoting.CommandLineRoundTrip` | src/process.cpp:88-113 | whether or not a reader takes doubled quotes for a quote, the child's argv is the given list if and only if no string holds a NUL and the program name survives; NUL-free arguments always do |
| `SseFraming.SseReader.OnSseRead` | src/http_client_transport.cpp:407-446 | one read feeds its lines to the reader state; the handler, if set, has received exactly the texts that parse |
| `SseFraming.SseReader.HandleSseFrame` | src/http_client_transport.cpp:455-490 | the texts of one event reach the parser in order, those that fail are ignored, and without a handler nothing is delivered |
| `SseTheorems.ReadAllSplit` | src/http_client_transport.cpp:414-446 | a stream cut at line ends in any way leaves the reader in the same state |
| `SseTheorems.DeliveredExact` | src/http_transport.cpp:1128-1129 | one frame delivers its payload if and only if the payload is clean |
| `SseTheorems.StreamExact` | src/http_client_transport.cpp:407-490 | for every stream of frames and data-free lines, cut at line ends, the payloads arrive once each and in order if and only if all are clean |
| `SseTheorems.EventExact` | src/http_client_transport.cpp:414-446 | an event of any number of data lines, with other fields and comments between, hands over each line's payload in order if and only if they are clean, and leaves nothing behind |
| `SseTheorems.EventName` | src/http_client_transport.cpp:433-435 | an event field sets the event name and nothing else |
| `SseChunks.AnyCutExact` | src/http_client_transport.cpp:407-490 | for every sequence of clean payloads and every chunking of their frames, the payloads are parsed once each and in order if and only if no cut lies strictly inside a data line |
| `SseChunks.SplitExact` | src/http_client_transport.cpp:415-446 | a frame cut in two arrives if and only if the cut is at the start or not before the end of its data line |

## Left out

- asio, llhttp, nlohmann parsing and dumping, `std::regex`: libraries. Strands are FIFO task queues, JSON is a datatype, and patterns are literals and `[^/?#]+` groups.
- Numbers: JSON integers are unbounded and fractional numbers are reals, so double rounding, and the wrap-around when an unsigned value is compared with a signed one, are not modelled; conversion of ids to int64 and size_t addition are.
- Request ids are unbounded; user callbacks are not re-entrant; the log records a callback's dispatch, inline or posted.
- Requests that the server sends to the client, and the client's replies to them, are not on the modelled wire.
- Handshake order is over whole runs, not per connection after a reconnect.
- Liveness of a submission that races a disconnect: only requests registered before a drain are covered.
- Session ids are fresh by assumption; Accept, Content-Type, Origin and Host checks and header sanitising are policy and not modelled; what turning a request away does to its connection is.
- Legacy SSE mode and its connection list; a broadcast is one push per session.
- The `parse_message_client` variant: the client model starts from classified messages.
- The stdio transport's byte bound, process and pipe plumbing, `AsyncLogger`, thread management of the executor, registration setters, and the field-by-field conversions of src/types.cpp: only easy members.
- ListCache.ListServer.HandleListRequest: describes an uninterrupted request; interrupted ones are its two sections, and the steps `List` and `EndList` of the runs.
- Batch.McpServer.OnMessage: a deferred request is recorded as posted; that it answers later as it would have answered is `Batch.DeferredSame`, while the order of the workers is not modelled.
- HttpQueues.WireOrder: between an enqueue and the arming it asks for no other thread's section on that queue is interleaved; those interleavings are in `WriteQueue`.
- ListCache.OrdinaryTransparent: one transport at a time, and a handler that is between its dispatch and its lookup when stop is called is not followed.
