# Streaming calls of easy_grpc: a verified model

The project models, in Dafny, the parts of easy_grpc that keep state across threads and callbacks, and
proves what they keep over every run.

* **Streaming calls.** Two client sessions and two server handlers hand-write the same sending protocol:
  messages pushed by the user are queued, at most one batch is in flight, each completion drains one more
  message, and the half-close (client) or the status (server) is started when the stream is over and the
  queue is empty. The receiving halves re-arm one read at a time and end on a null payload. Each class is
  modelled twice: as an object whose methods update its fields in place, statement by statement, and as
  functions on a value of those fields. The methods are proved to compute the functions, and everything
  else is proved about the functions, for every run. `SerialSender` is the protocol all four share, stated
  independently of them; `BidirCall`, `ClientStreamingCall` and `ServerStreamingCall` put a session, a
  handler and the lanes between them together.
* **The completion queue**: tags that carry flags in the low bits of a pointer, and the worker that decodes
  them, calls `exec` and deletes.
* **The reflection service**: the depth-first walk that fills the transitive file response.
* **The vendored `asio::basic_streambuf`**: a byte queue in an array that is shifted and regrown in place.
* **The protoc plugin's names**: `tokenize` and `class_name`.
* **Server setup and handler recycling**.

## How the calls are modelled

A run (`Runs.IsRun`) is a sequence of states with the event that leads from each to the next. The events of
a session are: the source stream yields a message (`Push`) or ends (`End`), core writes the buffer of the
outstanding read (`Recv`, with no value for the null payload), a batch completes and `exec` runs (`Done`).
The source of a client-streaming handler is the future of its callback, which yields one reply or fails.
Every lambda and every `exec` is one atomic step: the session's mutex covers the lambdas and most of `exec`,
and one worker thread serialises `exec`. In the constructor of the client-streaming session, starting the
metadata and setting `batch_in_flight_` (include/easy_grpc/client/stub_impl.h:332-333) are one step; were a
completion dispatched between the two, the flag would stay set for good (`OvertakenIsStuck`).

gRPC core appears as a contract (`GrpcCall`). Messages are the serialised buffers. A batch is refused if an
operation of its kind is outstanding or a one-shot operation is repeated, and perhaps if it is out of order;
`Call.accepted` stays true exactly as long as no batch is refused, that is, as long as no `assert(status ==
GRPC_CALL_OK)` fails. The order of the outgoing lane is metadata, messages, end; `Call.ordered` stays true
exactly as long as every batch keeps it. Whether core refuses a batch for being out of order is left open:
`CoreChecksOrder` is a constant without a value, so everything is proved for either kind of core. If core
accepts a message after the end, it completes but never reaches the lane, because nothing can follow the end of
a stream on the wire. `CallContract.Orderly` describes a call on which nothing went wrong, and each of the six
classes is proved to keep its own. Every accepted batch can complete once, in any order allowed by the lanes:
the k-th read of one end returns the k-th message sent by the other, or null once the other lane is closed and
exhausted, and the client's status request returns the status the handler sent. Sessions are also studied on
their own, in an environment that delivers anything at all.

A user's stream is pushed to until it ends once. The request stream of a client-streaming call may also fail;
those of the other calls end normally, except where a lemma is about their failing. On its own, a bidirectional
session's request stream may end either way. Events that would touch a deleted handler of a client-streaming or bidirectional call are not part
of a run of that call; the `DeletionSafeIff` lemmas say when there are such events, and under the worker, where
they do happen, `HazardDangles` shows one being dispatched.

## What turned out not to hold

* A bidirectional client is sound only if no null payload is dispatched while its half-close is outstanding.
  Otherwise `finish` runs twice and the second status request is refused, or the session is deleted under an
  outstanding batch: `SoundIffNoRace` is exact, `RaceRefuses` holds from every such state, and
  `FinishCanRunTwice` is a whole call in which it happens.
* Either end of a bidirectional call whose stream ends, with nothing queued, before the handshake completes
  never closes its half, because the handshake branch of `exec` does not look at the finished flag:
  `HalfCloseIffNotMissed` and `StatusIffNotMissed` are exact. The reader at the other end then never completes
  (`MissedEndHangsTheOther`), and it happens at both ends (`ClientCanMiss`, `HandlerCanMiss`). It is the only
  thing that keeps a call from ending: `BothDeletedIffNotMissed` with `EveryCallEnds`.
* A handler that is still reading when its closing batch completes is deleted under that read
  (`DeletionSafeIff` and `DeletedUnderTheRead`, for client-streaming and bidirectional handlers). With the race
  above this is all that can make the worker dispatch to a deleted object (`RiskyIffDangles`, `SafeIffNoRisk`).
* A reply stream that ends with an exception is reported to the client as OK, and what was still queued is
  dropped (`FailureReportedAsOk`, and `FailedStreamLooksComplete` for both kinds of call). In a server-streaming
  handler it is safe exactly when no batch is in flight (`FailSafeIff`). A bidirectional handler is then never
  deleted (`FailureLeaks`), and it starts a message after the status in some continuation exactly when something
  was queued; whether its assertion then fails is up to core (`FailureDisorderIff`).
* A request stream that ends with an exception reaches the handler of a client-streaming call as complete; the
  handler cannot tell the two ends apart (`HandlerCannotTell`, `FailedRequestLooksComplete`).
* A `reserve` that throws has already shifted the array of a streambuf, so the exception can change its contents:
  `ThrowKeepsContentsIff` says exactly when it does not.
* `tokenize` returns an empty list for the empty string, so it does not give back the one-element list that
  holds an empty token (`TokenizeJoined`).

## Model
| member | source | states |
|---|---|---|
| SerialSender.Safety | include/easy_grpc/client/stub_impl.h:373-461 | after any moves of the shared sending protocol, the pushed sequence is what was started followed by the queue, and the end is started only after everything pushed |
| SerialSender.Monotone | include/easy_grpc/client/stub_impl.h:373-461 | what was started stays started, and nothing is started after the end |
| ClientStreamingSession.Session.constructor | include/easy_grpc/client/stub_impl.h:314-333 | the session starts with the metadata exchange in flight |
| ClientStreamingSession.Session.FlushPending | include/easy_grpc/client/stub_impl.h:373-394 | the head of the queue is started and its buffer destroyed, unless a batch is in flight |
| ClientStreamingSession.Session.StartEnd | include/easy_grpc/client/stub_impl.h:396-428 | close, reply read and status request are started as one batch |
| ClientStreamingSession.Session.Push | include/easy_grpc/client/stub_impl.h:335-349 | a pushed message is serialised, queued and flushed |
| ClientStreamingSession.Session.Finally | include/easy_grpc/client/stub_impl.h:350-357 | the end of the stream, however it ended, starts the end batch when nothing is in flight |
| ClientStreamingSession.Session.Execute | include/easy_grpc/client/stub_impl.h:430-461 | one completion: drain, end, or resolve and ask for deletion |
| ClientStreamingSession.RefinesSerialSender | include/easy_grpc/client/stub_impl.h:332-461 | up to any point of any run, the moves performed by its events so far are, in order, a run of the serial FIFO sender that ends in the session's own queue, sent messages and flags; busy means that the metadata or a write is outstanding; a non-empty queue implies busy |
| ClientStreamingSession.WholeRunShape | include/easy_grpc/client/stub_impl.h:332-461 | the batches of any run are metadata, one write per message in push order, then one end batch after every pushed message; none is refused |
| ClientStreamingSession.CallIsOrderly | include/easy_grpc/client/stub_impl.h:332-461 | in any run at most one batch is outstanding, none is refused, one-shot operations are started once, metadata first, the initial metadata of the server asked for exactly once, no message after the end |
| ClientStreamingSession.FollowsEvents | include/easy_grpc/client/stub_impl.h:335-357 | in any run the request stream is what the events pushed and how they ended it, and the receive buffer holds what core wrote |
| ClientStreamingSession.PromiseEndsAsCoreSays | include/easy_grpc/client/stub_impl.h:439-456 | when the end batch completes with a status, the future is resolved in that step: with that failure, or, if the status is OK, with the message core wrote |
| ClientStreamingSession.BuffersConserved | include/easy_grpc/client/stub_impl.h:335-394 | every serialised buffer is destroyed exactly once; the live ones are those queued; none is left at deletion, where the queue is empty |
| ClientStreamingSession.DeletionIsFinal | include/easy_grpc/client/stub_impl.h:430-461 | at deletion nothing is outstanding, the stream is over and the reply is resolved once; no event can follow |
| ClientStreamingSession.OvertakenIsStuck | include/easy_grpc/client/stub_impl.h:332-333 | if the metadata complete between the two last statements of the constructor, nothing is ever sent, resolved or deleted in any continuation |
| ClientStreamingSession.ExactTermination | include/easy_grpc/client/stub_impl.h:373-461 | with k messages queued and f batches in flight when the stream ends, deletion and the reply come with exactly the (k + f + 1)-th completion, whatever else happens |
| ClientStreamingHandler.Handler.constructor | include/easy_grpc/server/methods/client_streaming.h:43-61 | after `perform`, metadata and the first read are started |
| ClientStreamingHandler.Handler.Answer | include/easy_grpc/server/methods/client_streaming.h:63-69 | a reply is sent with status OK, an exception as a status |
| ClientStreamingHandler.Handler.Execute | include/easy_grpc/server/methods/client_streaming.h:71-98 | one completion: deliver and re-arm, complete the reader, or ask for deletion |
| ClientStreamingHandler.CallIsOrderly | include/easy_grpc/server/methods/client_streaming.h:43-98 | in any run at most one read and one closing batch are outstanding, none is refused, one-shot operations are started once, metadata first, no message after the end |
| ClientStreamingHandler.FollowsEvents | include/easy_grpc/server/methods/client_streaming.h:63-98 | in any run whatever core writes is delivered, in order, but for the payload slot; what the callback answered, reply or status, is what core is handed |
| ClientStreamingHandler.DeletionSafeIff | include/easy_grpc/server/methods/client_streaming.h:71-98 | deletion is asked for exactly on the closing batch, and leaves nothing outstanding iff the null payload came first |
| ClientStreamingHandler.DeletedUnderTheRead | include/easy_grpc/server/methods/client_streaming.h:63-98 | a run in which a callback that answers without reading has its handler deleted under the first read |
| ClientStreamingCall.Conservation | include/easy_grpc/client/stub_impl.h:335-461 | in every interleaving, pushed = delivered, payload slot, lane, queue, in this order |
| ClientStreamingCall.CompleteMeansAll | include/easy_grpc/server/methods/client_streaming.h:71-98 | delivered is a prefix of pushed; once the reader is complete the callback has seen exactly the pushed sequence |
| ClientStreamingCall.ReplyIsTheAnswer | include/easy_grpc/client/stub_impl.h:439-456 | the client's future is resolved once, with what the callback answered, and only after it did |
| ClientStreamingCall.NoBatchRefused | include/easy_grpc/client/stub_impl.h:385-426 | no batch is refused at either end |
| ClientStreamingCall.QuietMeansOver | include/easy_grpc/client/stub_impl.h:430-461 | no deadlock: when core has nothing left to do after the end of the request stream, the reader is complete with exactly the pushed sequence if the callback has not answered, and both ends are deleted if it has |
| ClientStreamingCall.EveryCallEnds | include/easy_grpc/client/stub_impl.h:430-461 | once the request stream is over and the callback has answered, the events core still has are bounded by a measure that each one lowers, in any order; none is left exactly when both ends are deleted |
| ClientStreamingCall.HandlerCannotTell | include/easy_grpc/client/stub_impl.h:350-357 | every run has a twin in which a failing request stream ends normally and everything else, in every state, is the same |
| ClientStreamingCall.FailedRequestLooksComplete | include/easy_grpc/client/stub_impl.h:350-357 | when core has nothing left to do after a request stream failed and the callback has not answered, the reader is complete with everything pushed |
| ServerStreamingHandler.Handler.constructor | include/easy_grpc/server/methods/server_streaming.h:41-69 | after `perform`, the callback has been called with the payload and the metadata are in flight |
| ServerStreamingHandler.Handler.FlushPending | include/easy_grpc/server/methods/server_streaming.h:145-166 | the head of the queue is started, unless a batch is in flight |
| ServerStreamingHandler.Handler.StartEnd | include/easy_grpc/server/methods/server_streaming.h:130-143 | close notice and status OK are started, flagged for deletion |
| ServerStreamingHandler.Handler.Push | include/easy_grpc/server/methods/server_streaming.h:75-84 | a pushed message is queued and flushed |
| ServerStreamingHandler.Handler.Finally | include/easy_grpc/server/methods/server_streaming.h:86-112 | a normal end starts the status when idle; a failure starts it at once, as OK |
| ServerStreamingHandler.Handler.Execute | include/easy_grpc/server/methods/server_streaming.h:114-128 | one completion: ask for deletion, drain, or end |
| ServerStreamingHandler.RefinesSerialSender | include/easy_grpc/server/methods/server_streaming.h:75-166 | up to any point of any run, the moves performed by its events so far are, in order, a run of the serial FIFO sender that ends in the handler's own queue, sent messages and flags; busy means that the metadata or a write is outstanding; a non-empty queue implies busy |
| ServerStreamingHandler.WholeRunShape | include/easy_grpc/server/methods/server_streaming.h:41-166 | the batches of any run are metadata, writes in push order, one status after every pushed message; none is refused |
| ServerStreamingHandler.CallIsOrderly | include/easy_grpc/server/methods/server_streaming.h:41-166 | in any run at most one batch is outstanding, none is refused, one-shot operations are started once, metadata first, no message after the end |
| ServerStreamingHandler.FollowsEvents | include/easy_grpc/server/methods/server_streaming.h:41-112 | in any run the reply stream is what the events pushed and how they ended it, and the callback was called with the payload |
| ServerStreamingHandler.DeletionIsFinal | include/easy_grpc/server/methods/server_streaming.h:114-128 | at deletion nothing is outstanding or queued; no event can follow |
| ServerStreamingHandler.ExactTermination | include/easy_grpc/server/methods/server_streaming.h:86-143 | deletion comes with exactly the (k + f + 1)-th completion after a normal end |
| ServerStreamingHandler.FailSafeIff | include/easy_grpc/server/methods/server_streaming.h:96-112 | ending with an exception is sound in every continuation iff no batch is in flight |
| ServerStreamingHandler.FailureDisorderIff | include/easy_grpc/server/methods/server_streaming.h:96-128 | after a failure exactly one status is started in every continuation; a message is started after it in some continuation iff something was queued; a batch is refused in some continuation iff, besides, core checks the order |
| ServerStreamingHandler.FailureReportedAsOk | include/easy_grpc/server/methods/server_streaming.h:96-112 | after a failure the status is OK and nothing queued reaches the client, in every continuation and whether or not core checks the order of batches |
| StreamingSession.Session.constructor | include/easy_grpc/client/stub_impl.h:259-303 | the first batch sends the request and arms the first read |
| StreamingSession.Session.Execute | include/easy_grpc/client/stub_impl.h:181-244 | one completion: deliver and re-arm, close and request the status, or end the promise |
| StreamingSession.OneTerminalThenDeleted | include/easy_grpc/client/stub_impl.h:181-244 | whatever core delivers, the reply promise ends exactly at deletion, once, as complete iff the status is OK; then nothing is outstanding and no event can follow |
| StreamingSession.FollowsEvents | include/easy_grpc/client/stub_impl.h:181-232 | in any run whatever core writes is delivered, in order, but for the receive buffer |
| StreamingSession.PromiseEndsAsCoreSays | include/easy_grpc/client/stub_impl.h:234-240 | when the end batch completes with a status, the promise ends in that step, as complete or with that very failure, after everything core wrote |
| StreamingSession.CallIsOrderly | include/easy_grpc/client/stub_impl.h:181-303 | in any run at most one batch is outstanding, none is refused, one-shot operations are started once, metadata first, the initial metadata of the server asked for exactly once, no message after the end |
| ServerStreamingCall.Conservation | include/easy_grpc/server/methods/server_streaming.h:75-166 | in every interleaving, pushed = delivered, receive buffer, lane, queue, in this order |
| ServerStreamingCall.ClientReceivesExactlyThePushes | include/easy_grpc/client/stub_impl.h:181-244 | the client receives a prefix of the handler's pushes; its one terminal event is complete and comes after exactly all of them |
| ServerStreamingCall.HandlerGetsTheRequest | include/easy_grpc/server/methods/server_streaming.h:41-69 | the callback is called with the request, which is the one message the client sends |
| ServerStreamingCall.EveryCallEnds | include/easy_grpc/server/methods/server_streaming.h:86-143 | once the reply stream is over, core has exactly as many events left as the measure says, in any order, and none left exactly when both ends are deleted |
| ServerStreamingCall.FailedStreamLooksComplete | include/easy_grpc/server/methods/server_streaming.h:96-112 | a failed reply stream still completes at the client, with what was handed to core; that is everything pushed iff nothing was queued |
| BidirSession.Session.constructor | include/easy_grpc/client/stub_impl.h:504-524 | the session starts with the handshake outstanding |
| BidirSession.Session.FlushPending | include/easy_grpc/client/stub_impl.h:570-591 | the head of the queue is started, unless sending is not allowed |
| BidirSession.Session.StartHalfClose | include/easy_grpc/client/stub_impl.h:594-610 | the half-close is started |
| BidirSession.Session.AwaitTheStatus | include/easy_grpc/client/stub_impl.h:612-634 | the status request is started |
| BidirSession.Session.Push | include/easy_grpc/client/stub_impl.h:527-541 | a pushed message is queued and flushed |
| BidirSession.Session.Finally | include/easy_grpc/client/stub_impl.h:542-554 | the end of the stream starts the half-close when idle; a failure also cancels the call |
| BidirSession.Session.Execute | include/easy_grpc/client/stub_impl.h:636-728 | one completion, by its flags: closing, handshake, ending, write, read |
| BidirSession.RefinesSerialSender | include/easy_grpc/client/stub_impl.h:527-694 | up to any point of any run, the moves performed by its events so far are, in order, a run of the serial FIFO sender that ends in the session's own queue, sent messages and flags; busy means that the metadata or a write is outstanding; a non-empty queue implies busy |
| BidirSession.StatusComesLast | include/easy_grpc/client/stub_impl.h:612-652 | `finish` is reached only after half-close and null payload; half-close only after every push; queue empty at deletion; one terminal event, as the status says |
| BidirSession.FollowsEvents | include/easy_grpc/client/stub_impl.h:527-554 | in any run, whether the request stream ends normally or fails, the streams are what the events pushed and core wrote; the call is cancelled exactly when the request stream failed |
| BidirSession.PromiseEndsAsCoreSays | include/easy_grpc/client/stub_impl.h:643-652 | when the status request completes, the promise ends in that step, as complete or with that very failure, after everything core wrote |
| BidirSession.SoundIffNoRace | include/easy_grpc/client/stub_impl.h:679-725 | a run without the race never has a batch refused nor anything outstanding at deletion; with it, it has one of the two once the half-close completed or the session is deleted |
| BidirSession.CallIsOrderly | include/easy_grpc/client/stub_impl.h:504-728 | in any run the accepted batches share no outstanding kind of operation, repeat no one-shot operation, start with the metadata, ask for those of the server exactly once, and send nothing after the end; without the race all are accepted |
| BidirSession.RaceRefuses | include/easy_grpc/client/stub_impl.h:679-725 | from every state in which the race can happen, the two dispatches start a second status request, which core refuses |
| BidirSession.DeletionIsFinal | include/easy_grpc/client/stub_impl.h:636-652 | without the race, no event can follow deletion |
| BidirSession.HalfCloseIffNotMissed | include/easy_grpc/client/stub_impl.h:542-554 | an idle session whose stream is over has started its half-close iff no handshake completed after the end with nothing queued; otherwise it never will |
| BidirSession.ExactHalfClose | include/easy_grpc/client/stub_impl.h:684-694 | with k messages queued behind a write in flight at the end of the stream, the half-close comes with exactly the (k + 1)-th write completion |
| BidirHandler.Handler.constructor | include/easy_grpc/server/methods/bidir_streaming.h:34-47 | a new handler has started nothing |
| BidirHandler.Handler.Perform | include/easy_grpc/server/methods/bidir_streaming.h:49-76 | what the reply stream already holds is queued, and its end, normal or not, handled, before the metadata are started |
| BidirHandler.Handler.FlushPending | include/easy_grpc/server/methods/bidir_streaming.h:132-153 | the head of the queue is started, unless not ready |
| BidirHandler.Handler.StartServerEnd | include/easy_grpc/server/methods/bidir_streaming.h:78-91 | close notice and status OK are started, flagged as closing |
| BidirHandler.Handler.Push | include/easy_grpc/server/methods/bidir_streaming.h:94-102 | a pushed message is queued and flushed |
| BidirHandler.Handler.Finally | include/easy_grpc/server/methods/bidir_streaming.h:104-130 | a normal end starts the status when ready; a failure starts it at once, as OK and without a flag |
| BidirHandler.Handler.Execute | include/easy_grpc/server/methods/bidir_streaming.h:155-217 | one completion, by its flags: handshake, write, read, closing |
| BidirHandler.RefinesSerialSender | include/easy_grpc/server/methods/bidir_streaming.h:49-190 | the same, where the run of the sender starts with what `perform` queues: up to any point of any run, the moves performed by its events so far are, in order, a run of the serial FIFO sender that ends in the handler's own queue, sent messages and flags; busy means that the metadata or a write is outstanding; a non-empty queue implies busy |
| BidirHandler.StatusComesLast | include/easy_grpc/server/methods/bidir_streaming.h:78-217 | no batch is refused; the status comes after every push; deletion after the status |
| BidirHandler.FollowsEvents | include/easy_grpc/server/methods/bidir_streaming.h:94-214 | in any run the reply stream is what was pushed, early and later, and how it ended; whatever core writes is delivered, in order, but for the payload slot |
| BidirHandler.CallIsOrderly | include/easy_grpc/server/methods/bidir_streaming.h:49-217 | in any run no batch is refused, no two outstanding ones share a kind of operation, one-shot operations are started once, metadata first, no message after the end |
| BidirHandler.DeletionSafeIff | include/easy_grpc/server/methods/bidir_streaming.h:155-217 | deletion is asked for exactly on the closing batch, and leaves nothing outstanding iff the null payload came first |
| BidirHandler.DeletedUnderTheRead | include/easy_grpc/server/methods/bidir_streaming.h:155-217 | a run in which the status of an empty reply stream completes first and the handler is deleted under its read |
| BidirHandler.StatusIffNotMissed | include/easy_grpc/server/methods/bidir_streaming.h:104-112 | an idle handler whose stream is over has started its status iff no handshake completed after the end with nothing queued; otherwise it never will |
| BidirHandler.ExactEnd | include/easy_grpc/server/methods/bidir_streaming.h:182-190 | with k messages queued behind a write in flight at the end of the stream, the status comes with exactly the (k + 1)-th write completion |
| BidirHandler.FailureLeaks | include/easy_grpc/server/methods/bidir_streaming.h:114-130 | after a failure the handler is never deleted, in every continuation, and the status is OK |
| BidirHandler.FailureDisorderIff | include/easy_grpc/server/methods/bidir_streaming.h:114-190 | some continuation of a failure starts a message after the status iff something is queued; a batch is refused in some continuation iff, besides, core checks the order |
| BidirHandler.EarlyFailureLeaks | include/easy_grpc/server/methods/bidir_streaming.h:49-76 | a stream that has failed before `perform` attaches to it has what it held queued and its status started out of order, before the metadata; the status is refused iff core checks that, the client is told OK otherwise and nothing if so, and the handler is never deleted |
| BidirCall.DeliveredIsPrefixOfPushed | include/easy_grpc/client/stub_impl.h:527-728 | in every interleaving, both directions at once: delivered is a prefix of pushed, and pushed = delivered, payload slot, lane, queue |
| BidirCall.NullPayloadMeansAll | include/easy_grpc/server/methods/bidir_streaming.h:192-214 | an end that has seen the null payload has delivered exactly what the other pushed; promises end once |
| BidirCall.BothDeletedIffNotMissed | include/easy_grpc/client/stub_impl.h:636-728 | no deadlock, exactly: when core has nothing left to do after both streams ended, both ends are deleted iff neither handshake missed the end of its stream |
| BidirCall.EveryCallEnds | include/easy_grpc/client/stub_impl.h:636-728 | once both streams are over, the events core still has are bounded by a measure that each one lowers, in any order and whatever happened before |
| BidirCall.MissedEndHangsTheOther | include/easy_grpc/client/stub_impl.h:656-678 | in every run in which the client missed the end of its stream it never half-closes and the handler's reader never completes; in every run in which the handler did, it sends no status, the client's promise never ends and nothing is deleted |
| BidirCall.ClientCanMiss | include/easy_grpc/client/stub_impl.h:542-554 | a whole call in which the client misses the end of its stream |
| BidirCall.HandlerCanMiss | include/easy_grpc/server/methods/bidir_streaming.h:104-112 | a whole call in which the handler misses the end of its stream |
| BidirCall.FinishCanRunTwice | include/easy_grpc/client/stub_impl.h:718-725 | a whole call in which the second status request is refused |
| BidirCall.FailedStreamLooksComplete | include/easy_grpc/server/methods/bidir_streaming.h:114-130 | after the reply stream failed, in every continuation the client gets only what core had been handed, its promise can only end as complete with exactly that, which is everything pushed iff nothing was queued, and the handler is never deleted |
| CompletionTags.TagRoundTrip | include/easy_grpc/completion_queue.h:42-48 | an aligned pointer and four flags are recovered from the tag |
| CompletionTags.TagNumber | include/easy_grpc/completion_queue.h:42-48 | `completion_tag(n)` is the address plus n, and is read back as the flags of n |
| CompletionQueue.Worker.WorkerMain | src/easy_grpc/completion_queue.cpp:32-54 | the loop decodes each tag, dispatches, deletes when asked to, and stops at shutdown |
| CompletionQueue.WorkerFollowsWorld | src/easy_grpc/completion_queue.cpp:32-54 | a worker that is handed the completions of any run in order, then the shutdown, then anything, leaves exactly the objects that the run leaves |
| CompletionQueue.DispatchIsTheStep | src/easy_grpc/completion_queue.cpp:41-48 | dispatching a completion is the step of the object's own class, and deletion is asked for exactly when that step ends in it |
| CompletionQueue.ExecSafe | src/easy_grpc/completion_queue.cpp:45-48 | dispatching a completion, unless it is a hazardous one, keeps an object's invariant or deletes it with nothing outstanding; all six classes |
| CompletionQueue.NothingDispatchedToTheDeleted | src/easy_grpc/completion_queue.cpp:32-54 | with any number of sessions and handlers of all six classes under one worker, as long as no null payload races a half-close and no handler's closing batch completes while it still reads, no completion reaches a deleted object; each reaches its own, with its own flags |
| CompletionQueue.RiskyIffDangles | src/easy_grpc/completion_queue.cpp:32-54 | an event is hazardous iff some continuation after it, with no further hazardous event, dispatches a completion to a deleted object; all three kinds of hazard |
| CompletionQueue.SafeIffNoRisk | src/easy_grpc/completion_queue.cpp:32-54 | from any consistent world, with new objects or without, no continuation dispatches to a deleted object iff none takes a hazardous event |
| CompletionQueue.HazardDangles | src/easy_grpc/completion_queue.cpp:32-54 | a run from the empty system in which a completion is dispatched to a deleted handler |
| Reflection.Walk.FillFileResponse | src/easy_grpc_reflection/reflection_impl.cpp:161-179 | on any import graph the walk terminates and adds exactly the files reachable through files not seen before, each once, the root first, then always the first new import of the latest file that has one |
| Reflection.OrderIsUnique | src/easy_grpc_reflection/reflection_impl.cpp:161-179 | root, order and completeness leave only one response |
| Reflection.GetFileByName | src/easy_grpc_reflection/reflection_impl.cpp:81-97 | no pool, unknown file, or exactly the reachable files, depth first in import order |
| Reflection.GetFileContainingSymbol | src/easy_grpc_reflection/reflection_impl.cpp:99-114 | no pool, unknown symbol, or exactly the files reachable from its file, depth first in import order |
| Reflection.ClosedContainsPath | src/easy_grpc_reflection/reflection_impl.cpp:161-179 | a set closed under imports outside the avoided files contains every path it contains the start of |
| Streambuf.BasicStreambuf.constructor | variadic_future/examples/include/asio/basic_streambuf.hpp:131-141 | an empty buffer with room for 128 bytes or its maximum |
| Streambuf.BasicStreambuf.Reserve | variadic_future/examples/include/asio/basic_streambuf.hpp:308-346 | throws iff size + n exceeds the maximum; otherwise keeps the contents and leaves a put area of exactly the size it had, the size after shifting, or n; a throw has shifted the bytes but not the pointers |
| Streambuf.ThrowKeepsContentsIff | variadic_future/examples/include/asio/basic_streambuf.hpp:308-346 | a throw keeps the contents iff they repeat themselves with the period of the bytes consumed before, as when none or no fewer than are held were |
| Streambuf.BasicStreambuf.Prepare | variadic_future/examples/include/asio/basic_streambuf.hpp:214-219 | the same, returning exactly n bytes at the put pointer, within the put area |
| Streambuf.BasicStreambuf.Commit | variadic_future/examples/include/asio/basic_streambuf.hpp:233-238 | the first n bytes of the put area, or all of it, are appended to the contents |
| Streambuf.BasicStreambuf.Consume | variadic_future/examples/include/asio/basic_streambuf.hpp:247-254 | the first n bytes of the contents, or all of them, are dropped |
| Streambuf.BasicStreambuf.Underflow | variadic_future/examples/include/asio/basic_streambuf.hpp:263-274 | the first byte, or end of file iff the buffer is empty; the contents stay |
| Streambuf.BasicStreambuf.Overflow | variadic_future/examples/include/asio/basic_streambuf.hpp:283-306 | a character is appended, growing a full buffer by 128 or what is left to the maximum, or the call throws iff the size is the maximum |
| Streambuf.BasicStreambuf.Perform | variadic_future/examples/include/asio/basic_streambuf.hpp:192-346 | any run of operations, where a commit may take less than was prepared, behaves as on a bounded queue of bytes, up to the first that throws, and throws exactly when size plus the room asked for exceeds the maximum |
| Streambuf.FirstInFirstOut | variadic_future/examples/include/asio/basic_streambuf.hpp:192-346 | that queue holds what went in, in order, without what was dropped from the front, and never exceeds the maximum |
| TypeNames.SplitUnique | protoc_plugin/main.cpp:95-113 | a string splits into separator-free tokens in only one way |
| TypeNames.Tokenize | protoc_plugin/main.cpp:95-113 | joining the tokens gives the string back and no token contains the separator; empty iff the string is |
| TypeNames.TokenizeJoined | protoc_plugin/main.cpp:95-113 | tokenizing a joined list gives the list back iff it is not the list of one empty token |
| TypeNames.PackageParts | protoc_plugin/main.cpp:115-117 | the parts of a package, which are unique |
| TypeNames.ClassName | protoc_plugin/main.cpp:52-81 | the type name is the global qualifier, the package's namespaces, and the nesting chain joined by underscores |
| MethodListener.Listener.Execute | include/easy_grpc/server/methods/listener.h:42-55 | a call is given to the pending handler and a new one is created; a failure asks for deletion and changes nothing |
| MethodListener.Listener.Inject | include/easy_grpc/server/methods/listener.h:57-84 | a new handler is pending and one call is requested for it, with its payload iff the handler wants it at once |
| MethodListener.Listener.Destroy | include/easy_grpc/server/methods/listener.h:36-40 | the pending handler, if any, is deleted |
| MethodListener.Listener.Serve | include/easy_grpc/server/methods/listener.h:36-84 | over any run, one more handler is created than performed, one call is requested for each, each is performed once, and at shutdown exactly the unperformed one is deleted |
| ServerSetup.Collect | src/easy_grpc/server/server.cpp:52-71 | all methods in order, and the set of queues they use with the shutdown queue |
| ServerSetup.Construct | src/easy_grpc/server/server.cpp:52-101 | each queue in use is registered once, then each method, then the server starts, then each method listens on its queues |
| ServerSetup.CallsOfEachMethod | src/easy_grpc/server/server.cpp:52-101 | the log holds, at the places given by the configuration's order and nowhere else, the registration of each method with its payload handling, the start, and each method listening on each of its own or the default queues |
| ServerSetup.EveryMethodListens | src/easy_grpc/server/server.cpp:73-101 | each method is registered before the start and listens after it on each queue of its own, or of the server if it has none |
| ServerSetup.ListenedQueuesAreRegistered | src/easy_grpc/server/server.cpp:73-101 | every queue listened on was registered before the start, and no queue twice |

## Left out
- gRPC core: sockets, HTTP/2, metadata contents, deadlines and cancellation. A broken connection is not modelled, because every `exec` ignores its success flag.
- What happens to a call after it was cancelled: the client's bidirectional session only records that it asked for it.
- `serialize` and `deserialize`: messages are the serialised buffers. Buffer lifetimes are followed in the client-streaming session only; the other senders destroy theirs at the same place.
- MethodListener.Listener.Inject: core is assumed to accept the request for the next call; its asserted return code is not modelled.
- The receive buffer pointers of two client sessions are not initialised by the source before core first writes them; in the model they start empty, and nothing reads them earlier.
- The worker theorem covers handlers whose reply streams end normally; for failing ones see `FailSafeIff` and `FailureLeaks`.
- A first batch that core refuses, when a server-streaming call cannot be started at all.
- A callback of a server-streaming handler that throws instead of returning a stream is a failure before any push, see `FailSafeIff`; one of a bidirectional handler is not caught by the source.
- Data races and memory ordering: steps are atomic.
- Futures and promises: used as ordered pushes followed by one end.
- Narrowing of sizes to `int` in `commit` and `consume`, and pointer overflow in `consume` for sizes near the end of the address space.
- `get_file_containing_extension`: the same walk from the file of an extension found in the pool.
- Listening ports and credentials of a server, and the attributes of its shutdown queue.
- Unary calls, channels, the environment, protobuf serialisation and the plugin's code text: I/O or thin wrappers.
