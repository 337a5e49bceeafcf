# A verified model of streammux

streammux multiplexes many streams of frames over one byte stream and serves terminal sessions over it. This project
models its four linked components in Dafny and proves what every run of them keeps. Each mutex-protected section of
the Go code is one atomic step; a run is any sequence of such steps; ghost logs record what was accepted, selected,
written, read, delivered and emitted. Where the code changes fields in place there is also a class with those fields,
whose methods are proved to compute the step functions.

| component | modules |
|---|---|
| Wire path: 28-byte headers, validation, partial writes, the write loop | `Frames`, `Codec`, `Connection` |
| Peer: weighted scheduler, inbound workers, request correlation, wakeups | `PeerLimits`, `Outbound`, `Scheduler`, `Sender`, `Inbound`, `Correlation`, `Wakeups` |
| Two peers composed, one direction and both | `EndToEnd`, `Calls` |
| Session manager: history store, attachments, lifecycle, observers | `History`, `Attachments`, `Replay`, `Lifecycle`, `Observers` |
| Terminal protocol: list pagination and replay framing | `Cursor`, `Pagination`, `ReplayFraming` |
| Manager, protocol and both peers composed | `ClientView` |

The main results, hardest first:

- `EndToEnd.EndToEndOrder` and `EndToEndComplete`: over two peers and one byte stream, with any traffic classes, any
  splitting of writes and any failure, the handlers of a stream start on a prefix of what the sender accepted on it,
  and on all of it once the stream is quiet.
- `Calls.CallGetsItsOwnResponse`: with both directions of the connection and the correlation table in one machine, a
  call that gets a frame got what the remote handler answered to that very request.
- `ClientView.ClientSeesAttach` and `ClientSeesAll`: one attach as its client receives it, through the manager, the
  protocol, the server's scheduler, the byte stream and the client's dispatcher.
- `Replay.ReplayJoinsLive`, `NothingIsSkipped` and `DrainedMeansComplete`: an attachment's sink sees consecutive
  sequence numbers across the seam between replay and live output, then at most one exit; `AttachAnswersExactly` says
  what the answer to an attach means.
- `ReplayFraming.AttachFramesInOrder` and `AttachFramesComplete`: the frames of one attach, composed with the whole
  manager, whatever outcome each send has.
- `Scheduler.WeightedShare` and `ExactShare`: the configured class weights are honoured in every window of their sum, and
  exactly so when all classes are always ready.
- `History.Store` refines one flat log, with `LogIsDetermined` making that log unique and `TotalIsSum` tying the
  manager's total to the sum over its sessions; `Replay.HistoryIsConserved` states it of every run.
- `Lifecycle.SessionEventGrammar`, `SessionLimits`, `RetainedExactly`: lifecycle safety over whole runs;
  `Observers.ObserverSeesGrammar` carries the grammar to what an observer received, registry and observers being one
  machine there.
- `Sender.CursorInRange`: the rotating cursor stays in range through every in-place removal of a run.
- `Sender.OutcomeAccounting`, `Correlation.SlotsFilledAtMostOnce`: exactly-once outcomes.
- `Pagination.ListingIsExact`: a listing that ends without an error is exact, however the registry moved meanwhile.

Beside these laws each operation has a result that says what it decides or leaves, in the configuration's own fields, the
queues' own contents and the frames' own headers (the rows whose member ends in `Exactly`).

Some properties turned out not to hold of the code as it is; each has a witness and its exact condition:

- `Call` labels its pending record in a second locked section without looking whether the record is still there.
  It panics if and only if the peer has closed in between (`Correlation.LabelCanPanic`, `LabelPanicsExactly`).
- The `Truncated` flag of an attach does not always tell that output was lost. It does if and only if the history is
  not empty or nothing was left to replay (`Replay.RunCanMissALoss` is a run that reaches it,
  `Attachments.TruncatedExactly` and `Replay.AttachAnswersExactly` the condition).
- A list request panics if and only if its position and limit add up to more than an `int` holds, which nothing in the
  configuration rules out (`Pagination.ListCanCrash`, `ListCrashesExactly`, and `HandleList` for the wrapping addition).
- A listed observer can miss events. It can still be given everything emitted since it subscribed if and only if its
  worker has not returned, which its reader sees by its open event channel, or it already was given everything
  (`Observers.ListedMissesNothingExactly`). Once the manager's context is canceled the worker may return, losing the
  event in its hand (`CanceledWorkerCanLoseAnEvent`; that step and no other, `HeldIsLostExactly`) and every event still
  queued to it until Close takes it off the list (`StoppedWorkerCanLoseAll`).

## Model

| member | source | states |
|---|---|---|
| `Frames.WithDefaults` | codec.go:23-37 | each unset field gets its default and each set one keeps its value; without a maximum only the minimum version is spoken; the result is complete and complete configurations are left alone |
| `Frames.ClassCount` | frame.go:120-128 | the counting loop counts the message kinds a flag word claims |
| `Frames.OneKindExactly` | frame.go:108-110 | known flags with exactly one kind are exactly the three single-flag words |
| `Frames.HeaderAcceptedExactly` | frame.go:98-118 | the ordered header checks accept exactly the well-formed headers |
| `Frames.AcceptedExactly` | frame.go:79-96 | a frame validates if and only if its length agrees, its header is well formed and the application accepts it |
| `Frames.HeaderErrorExactly` | frame.go:98-118 | which error each malformed header gets, in the order of the tests |
| `Frames.FrameErrorExactly` | frame.go:79-96 | which error each malformed frame gets, in the order of the tests |
| `Codec.GetPut` | codec.go:110-128 | reading a big-endian field gives back the number written, at any width |
| `Codec.PutGet` | codec.go:110-128 | writing a field back gives the same bytes, for any bytes |
| `Codec.FirstByteWeighsMost` | codec.go:110-128 | fields are in network byte order |
| `Codec.HeaderFields` | codec.go:110-117 | the six fields lie at their six offsets |
| `Codec.PutUint` | codec.go:110-117 | one field is written in place and no other byte of the buffer changes |
| `Codec.EncodeHeader` | codec.go:110-117 | the in-place encoder leaves exactly the 28 header bytes in the buffer |
| `Codec.DecodeEncodeHeader` | codec.go:110-128 | decoding undoes encoding for every header |
| `Codec.EncodeDecodeHeader` | codec.go:110-128 | encoding undoes decoding for every 28 bytes |
| `Codec.ReadInvertsEncode` | codec.go:57-91 | bytes are read as frame f and rest if and only if they are the encoding of f followed by rest and f is acceptable |
| `Codec.ReadFailsExactly` | codec.go:57-78 | why a read fails on every input: nothing left, cut short, or malformed, the header being judged before the payload is read |
| `Codec.StampedExactly` | codec.go:80-91 | only the length field of a written frame is set, to its payload's length, and a payload no 32-bit field can count is refused |
| `Codec.CutFrameIsUnexpectedEnd` | codec.go:57-78 | every strict nonempty prefix of an encoding ends in an unexpected end of stream |
| `Codec.PrefixFree` | codec.go:57-91 | no encoding is a prefix of another, so a byte stream splits into frames in one way |
| `Codec.ReadIsPrefixOfWritten` | codec.go:57-108 | if the bytes read and in transit are the bytes written, the frames read are a prefix of the frames written |
| `Codec.Decoder.ReadFull` | codec.go:57-78 | reads exactly n bytes, or everything left and says whether any byte had come |
| `Codec.Decoder.ReadFrame` | codec.go:57-78 | the stateful reader computes the read function and leaves the unread rest |
| `Codec.Encoder.WriteFull` | codec.go:93-108 | success means all bytes went out in order, failure that a prefix did, for any counts and errors of the transport |
| `Codec.Encoder.WriteFrame` | codec.go:80-91 | an unacceptable frame writes nothing, success writes exactly its encoding, failure a prefix of it |
| `Connection.Conn.SetError` | conn.go:135-144 | the first error is kept |
| `Connection.Conn.WriteLoop` | conn.go:107-125 | all answers but the last are successes, the bytes out are those frames in order with at most one partial at the end, and the error kept is the one answered |
| `Outbound.PushValid` | peer.go:573-604 | admitting a request keeps the order list, the queues, both counters and all limits |
| `Outbound.FitsExactly` | peer.go:573-593 | a request fits if and only if the queues with it still respect every limit |
| `Outbound.AdmitExactly` | peer.go:567-605 | the four answers of send, from what is queued, the payload and the configured limits |
| `Outbound.PushAppends` | peer.go:594-600 | a request goes to the end of its own stream's queue and no other queue changes |
| `Outbound.PushOrder` | peer.go:594-603 | a new stream goes to the end of the order list and the counters grow by the request |
| `Outbound.TakeAtValid` | peer.go:674-701 | taking a head keeps the order list, the queues, both counters and all limits, also when its stream leaves |
| `Outbound.TakeAtPops` | peer.go:684-696 | exactly the head of one stream leaves and every other queue is as it was |
| `Outbound.TakeFailsExactly` | peer.go:674-703 | a take of a class finds nothing if and only if no stream's head is of that class, and then changes nothing |
| `Outbound.TakeServesAHead` | peer.go:674-703 | a successful take returns and removes the head of a stream that was ready |
| `Outbound.TakeServesFirst` | peer.go:674-701 | the scan starts at the cursor and goes round: no stream before the one served has a head of the class, and the others keep their order |
| `Outbound.CursorFollowsServed` | peer.go:689-698 | after the in-place removal the cursor stands on the stream that followed the served one, in range |
| `Outbound.TakeCursorOk` | peer.go:674-703 | whatever a take finds or removes, it leaves the cursor in range of the list it leaves |
| `Scheduler.SelectServes` | peer.go:632-646 | a selection serves the first class with a ready head from the current turn on, and spends its credit |
| `Scheduler.SelectsInTurn` | peer.go:626-646 | which class one selection serves and what it leaves of turn and credit, in the configured weights |
| `Scheduler.WorkConserving` | peer.go:632-660 | the six-scan loop finds nothing if and only if no frame is queued |
| `Scheduler.SelectionOk` | peer.go:632-646 | each selection removes one stream head and keeps the queue and credit invariants |
| `Scheduler.ScanCursorOk` | peer.go:632-646 | the whole six-scan pass leaves the cursor in range |
| `Scheduler.WeightedShare` | peer.go:625-703 | in any window of ControlWeight + InteractiveWeight + BulkWeight selections a class with a ready head before each of them gets at least its own configured weight |
| `Scheduler.ExactShare` | peer.go:625-703 | when all three classes are always ready such a window gives each exactly its configured weight |
| `Scheduler.Outbox.Offer` | peer.go:559-604 | one locked pass of send computes admission and the new queues |
| `Scheduler.Outbox.RemoveHead` | peer.go:684-701 | the in-place removal of a stream's head computes the new queues and the next cursor |
| `Scheduler.Outbox.TakeLocked` | peer.go:674-703 | the in-place search and removal computes the take function, cursor included |
| `Scheduler.Outbox.SelectNext` | peer.go:632-646 | the scan loop over classes, credit and cursor computes the selection function |
| `Scheduler.Outbox.Drain` | peer.go:721-730 | fail empties the queues and answers each queued request once, in its stream's order |
| `Sender.RunKeeps` | peer.go:559-735 | in every run the queues stay valid and accepted requests are selected, queued or dropped, in stream order |
| `Sender.SelectionIsFifo` | peer.go:559-703 | on each stream the requests selected are a prefix of those accepted, whatever their classes |
| `Sender.StepSelects` | peer.go:647-670 | the scheduler selects only when idle, one request at a time, and stops after a failed write |
| `Sender.CursorInRange` | peer.go:625-703 | in every run before fail the cursor is a position of the order list, or 0 when that is empty |
| `Sender.OutcomeAccounting` | peer.go:559-735 | an accepted request has exactly one outcome or is waiting for exactly one, and any other request has none |
| `Sender.EveryRequestIsAnswered` | peer.go:661-670 | once the peer failed and the scheduler stopped, every accepted request has exactly one outcome |
| `Sender.StoppedMeansClosed` | peer.go:647-670 | the scheduler never stops while the peer is open |
| `Inbound.RunKeeps` | peer.go:396-480 | in every run the worker table, the queues and their byte counts agree |
| `Inbound.OneWorkerPerStream` | peer.go:396-480 | two live workers of one stream are the same worker, so its handlers never overlap |
| `Inbound.HandlersStartInOrder` | peer.go:396-480 | on each stream the frames handlers started on are a prefix of those accepted |
| `Inbound.InboundLimits` | peer.go:410-440 | queued bytes are the sum of queued sizes; the byte, frame and stream limits hold under both policies |
| `Inbound.WorkerAlwaysHasAHandler` | peer.go:451-480 | a queued frame's handler is registered when its worker looks it up |
| `Inbound.WaitingHasAWorker` | peer.go:428-447 | a reader held back by backpressure waits on a stream that has a worker and a backlog |
| `Inbound.VerdictExactly` | peer.go:396-440 | the six verdicts of dispatch, from the tables, the backlog, the limits and the queue policy |
| `Inbound.DispatchExactly` | peer.go:396-435 | a queued frame is last in its stream's backlog, the stream has a worker even if the frame is refused for size or room, and otherwise nothing changed |
| `Inbound.WorkExactly` | peer.go:451-480 | a worker's pass starts the oldest waiting frame or retires and frees the stream |
| `Inbound.HandlerEndsExactly` | peer.go:462-476 | a handler's error breaks its worker and closes the peer, a returned handler goes on |
| `Inbound.RegistersExactly` | peer.go:252-278 | handlers are added while the peer is open |
| `Inbound.Dispatcher.DispatchPass` | peer.go:396-449 | one locked pass of dispatch computes the verdict and the new tables |
| `Inbound.Dispatcher.WorkerPass` | peer.go:451-480 | one locked pass of a worker takes the next frame or retires the worker |
| `EndToEnd.RunKeeps` | peer.go:370-480 | in every run of both peers the bytes read and in transit are the bytes written, and the write loop holds what was selected |
| `EndToEnd.ReadIsPrefixOfSelected` | conn.go:63-125 | the frames the receiver has read are a prefix of those the sender's scheduler selected |
| `EndToEnd.OrderOnStream` | peer.go:370-480 | on each stream the frames read are a prefix of those accepted, responses included, and handlers start on a prefix of the others |
| `EndToEnd.EndToEndOrder` | peer.go:559-703 | on each stream, handlers start on a prefix of the request and event frames the sender accepted |
| `EndToEnd.EndToEndComplete` | peer.go:559-703 | when nothing of a stream is queued, held, in transit or lost, its handlers started on all of them |
| `EndToEnd.FrameWasAccepted` | peer.go:354-480 | every frame read or started on by a handler was accepted from the sender |
| `EndToEnd.BrokenWritesNoMore` | conn.go:107-125 | a failed write is the last: no byte follows it |
| `Correlation.RunKeeps` | peer.go:491-557 | in every run pending and canceled are disjoint, the tombstone order lists the canceled ids once, oldest first and within the limit |
| `Correlation.RecordsLeaveOnce` | peer.go:491-557 | every call record is pending or left exactly once, and after fail all have left |
| `Correlation.SlotsFilledAtMostOnce` | peer.go:491-557 | every result slot gets at most one value, so the send into it never blocks |
| `Correlation.LabelPanicsExactly` | peer.go:291-300 | labelling a reserved call panics if and only if the peer has closed since |
| `Correlation.LabelCanPanic` | peer.go:291-300 | the run reserve, fail, label panics |
| `Correlation.LateResponseAbsorbed` | peer.go:512-557 | before any fail, a late matching response to an abandoned call is absorbed unless MaxCanceledRequests later calls were abandoned or it was absorbed already |
| `Correlation.ResolvesExactly` | peer.go:528-557 | what resolve does with every response, from the two tables |
| `Correlation.LabelsExactly` | peer.go:291-300 | the second section of Call labels its own record and no other |
| `Correlation.AbandonsExactly` | peer.go:512-526 | an abandoned call becomes the youngest tombstone and only an excess oldest one goes |
| `Correlation.FailsExactly` | peer.go:715-720 | fail gives every pending slot its error once and forgets all tombstones |
| `Correlation.SomeIdIsFree` | peer.go:491-510 | with fewer than 2^64 - 2 records some id other than zero and the counter is unused |
| `Correlation.FullTable` | peer.go:491-510 | if all such ids are in use there are at least 2^64 - 2 records |
| `Correlation.Table.ReservePending` | peer.go:491-510 | the wrapping loop ends with the first unused id after the counter; it succeeds whenever fewer than 2^64 - 2 records are held |
| `Correlation.Table.AbandonPending` | peer.go:512-526 | a pending call becomes the youngest tombstone and only an excess oldest one goes |
| `Correlation.Table.ResolveLocked` | peer.go:528-555 | a response is matched, absorbed or unexpected, and the in-place lists change accordingly |
| `Correlation.Table.FailPending` | peer.go:715-720 | every pending slot gets the error once and the tables are emptied |
| `Correlation.CollectSlots` | peer.go:715-717 | the loop over the pending map visits each slot exactly once |
| `Wakeups.NoLostWakeup` | peer.go:396-705 | in every run a sender that would not find its queues full, a reader that would not wait, or a scheduler with a queued frame or a closed peer is not parked on the current epoch |
| `Calls.RunKeeps` | peer.go:284-352 | in every run of both directions every response sent answers a request its handler was started on, every record has its call's id, and until 2^64 calls the k-th call has id k + 1 |
| `Calls.FirstAttempt` | peer.go:491-510 | before the counter wraps its next value is free, so reservePending succeeds at its first attempt |
| `Calls.CallGetsItsOwnResponse` | peer.go:284-352 | the frame a call got is a response the remote peer sent from a handler it had started on the request of a call with the same id, and on the very request of this call as long as fewer than 2^64 calls were made |
| `Calls.RespondsUnderTheRequest` | peer.go:338-352 | a response has the request's correlation and stream and, unless it names one, its type |
| `History.TrimSessionKeeps` | pty/manager.go:1128-1130 | the session quota leaves a fitting suffix of that session's chunks, others untouched, every dropped byte counted |
| `History.TrimSessionLongest` | pty/manager.go:1128-1130 | no longer suffix would have fitted |
| `History.TrimTotalKeeps` | pty/manager.go:1131-1143 | the total quota leaves a fitting suffix of the whole log, every dropped byte counted |
| `History.TrimTotalLongest` | pty/manager.go:1131-1143 | no longer suffix would have fitted |
| `History.AppendConserves` | pty/manager.go:1110-1153 | bytes published are in the log afterwards or counted as truncated |
| `History.AppendIsSuffix` | pty/manager.go:1110-1153 | each session keeps a suffix of its chunks and the new one, within both quotas |
| `History.AppendKeepsNewest` | pty/manager.go:1110-1153 | the newest chunk is never dropped by its own append |
| `History.KeptIsLongest` | pty/manager.go:1114-1122 | what is kept of a chunk is the longest suffix within both quotas |
| `History.AppendExactly` | pty/manager.go:1110-1153 | after an append the newest chunk is the published one, whole if it fits both quotas and otherwise their smaller one's worth; all others were there before; every cut and drop is counted |
| `History.AppendOff` | pty/manager.go:1110-1113 | with either quota zero nothing is kept or counted |
| `History.OldestIsFirst` | pty/manager.go:1132-1138 | the least order among the list heads is the first chunk of the whole log |
| `History.LogIsDetermined` | pty/manager.go:1110-1153 | the per-session lists stand for exactly one order-sorted log |
| `History.SumTakes` | pty/manager.go:1110-1158 | the sum over the sessions' byte counts does not depend on the order of the map |
| `History.TotalIsSum` | pty/manager.go:1110-1158 | the bytes of the whole log are the sum over the sessions' lists |
| `History.Store.constructor` | pty/manager.go:319-336 | an empty store refines the empty log |
| `History.Store.AppendHistory` | pty/manager.go:1110-1144 | the two nested loops over per-session lists compute append, session trim and total trim of the flat log, and the manager's total stays the sum over its sessions |
| `History.Store.AddChunk` | pty/manager.go:1114-1127 | an oversized chunk keeps its suffix and the counters follow |
| `History.Store.OldestSession` | pty/manager.go:1132-1138 | the scan over map entries finds a list whose head has the least order, or none |
| `History.Store.EvictOldest` | pty/manager.go:1131-1143 | the head-only scan loop drops the overall oldest chunks down to the total quota |
| `History.Store.DropFirstHistory` | pty/manager.go:1146-1153 | one chunk leaves its list, the log and both byte counts |
| `History.Store.Remove` | pty/manager.go:1154-1158 | a removed session's chunks leave the log and its bytes the total, and nothing else does |
| `Attachments.CaptureReplay` | pty/manager.go:812-829 | the capture loop returns the unseen chunks and the interval they span |
| `Attachments.CaptureExactly` | pty/manager.go:812-829 | a history replay is exactly the chunks above the resume point, whole and in order, no replay is nothing, and Truncated is set exactly when the oldest chunk is above the one after the resume point |
| `Attachments.CaptureJoinsLive` | pty/manager.go:812-829 | a nonempty replay ends right before NextLive and starts after the resume point |
| `Attachments.CaptureAnswers` | pty/manager.go:812-829 | the answered interval is that of the replay, and Truncated is set exactly when a nonempty replay starts later than right after the resume point |
| `Attachments.TruncatedExactly` | pty/manager.go:814-817 | Truncated equals "some output after the resume point is not replayed" if and only if the history is not empty or nothing was left to replay |
| `Attachments.LossyExactly` | pty/manager.go:812-829 | a contiguous replay misses a sequence exactly when it starts later than right after the resume point |
| `Attachments.TruncatedCanMissALoss` | pty/manager.go:814-817 | with an empty history every loss goes unreported, whatever was published and whatever the resume point |
| `Attachments.OfferOk` | pty/manager.go:1244-1258 | a published output keeps what the attachment was promised, queued or refused |
| `Attachments.OfferExactly` | pty/manager.go:1244-1258 | an output is queued if and only if the attachment is open and its queued bytes leave room |
| `Attachments.OfferExitOk` | pty/manager.go:1259-1270 | the exit is queued behind every output |
| `Attachments.OfferExitExactly` | pty/manager.go:1259-1270 | the exit is queued once behind everything and nothing can follow it |
| `Attachments.EndsExactly` | pty/manager.go:1222-1293 | activation starts an open attachment, finishing discards what is left of any |
| `Attachments.TakeOk` | pty/manager.go:1295-1340 | handing over one event keeps delivered and pending together the script |
| `Attachments.TakeExactly` | pty/manager.go:1298-1339 | a worker's pass hands over the next event if active, nothing if paused, and ends with the exit behind it and nothing left |
| `Attachments.DeliveredIsPrefix` | pty/manager.go:1295-1350 | what was delivered is a prefix of replay, live outputs and exit |
| `Attachments.FullAt` | pty/manager.go:1295-1350 | the k-th event of that stream has the k-th sequence number, replayed data a suffix and live data all of what was published |
| `Attachments.DrainedIsFull` | pty/manager.go:1306-1309 | an attachment that closed because it drained was given its whole stream, exit included |
| `Attachments.Attachment.constructor` | pty/manager.go:1188-1193 | a new attachment has its replay ahead of it and an empty queue |
| `Attachments.Attachment.Enqueue` | pty/manager.go:1244-1258 | queues within the byte limit, otherwise leaves the session's table |
| `Attachments.Attachment.EnqueueExit` | pty/manager.go:1259-1270 | queues the exit once and closes the queue to more |
| `Attachments.Attachment.Resume` | pty/manager.go:1222-1233 | activates an open attachment and says whether it was open |
| `Attachments.Attachment.Close` | pty/manager.go:1272-1293 | discards everything queued, once |
| `Attachments.Attachment.Next` | pty/manager.go:1298-1339 | one locked pass of the worker hands over the next event, parks or finishes |
| `Attachments.Attachment.TakeEvent` | pty/manager.go:1322-1338 | takes the next replayed chunk, then the head of the queue |
| `Replay.RunKeeps` | pty/manager.go:771-1158 | every run keeps histories, byte accounts and attachments in order |
| `Replay.ReplayJoinsLive` | pty/manager.go:771-1350 | in every run delivered outputs are consecutive from the ReplayFirst answered, or NextLive when that is 0, and an exit is delivered once, last, after every output published |
| `Replay.AttachAnswersExactly` | pty/manager.go:771-852 | every attachment of a run was answered an interval that ends right before NextLive and starts after the resume point, or none; Truncated tells exactly whether output after the resume point was not replayed if and only if something was replayed or nothing was left |
| `Replay.AttachReplaysHistory` | pty/manager.go:771-852 | in every run an attach is accepted if and only if its session runs or is retained and its resume point is not in the future, and then replays exactly the session's history of that moment above the resume point |
| `Replay.PublishReachesAll` | pty/manager.go:1089-1104 | a publication is numbered, kept and offered to every attachment in the session's table and no other |
| `Replay.ExitReachesAll` | pty/manager.go:931-946 | an exit is offered to every attachment in the session's table and no other |
| `Replay.SessionStepsExactly` | pty/manager.go:352-1065 | what opening, stopping and exiting a session do to the tables that attaches look at |
| `Replay.RetentionStepsExactly` | pty/manager.go:966-1065 | what retaining, evicting and removing it do to them and to its history |
| `Replay.RunCanMissALoss` | pty/manager.go:771-1153 | a run that reaches it: a full total quota drives out a session's only chunk, and an attach to that session is answered an empty replay that is not truncated |
| `Replay.NothingIsSkipped` | pty/manager.go:1089-1350 | an attachment still in its table that caught up was given everything |
| `Replay.DrainedMeansComplete` | pty/manager.go:1295-1350 | an attachment whose worker returned because nothing was left was given everything, exit included |
| `Replay.HistoryIsContiguous` | pty/manager.go:1089-1153 | every registered session's history is a contiguous run ending at its last sequence, each chunk a nonempty suffix of what was published |
| `Replay.HistoryIsFullest` | pty/manager.go:1089-1153 | in every run each chunk kept is the most that both quotas allow of what was published under its number |
| `Replay.HistoryIsConserved` | pty/manager.go:1049-1158 | published bytes are retained, truncated or released, the total is the sum over the registered sessions, and both quotas hold |
| `Replay.ParkedWorkerHasNothingToDo` | pty/manager.go:1222-1316 | over any stretch of a run without a signal, an attachment worker that parked still has nothing to do |
| `Lifecycle.RunKeeps` | pty/manager.go:352-1065 | every run keeps the counters, flags, retained list, ids, stories and balance |
| `Lifecycle.SessionEventGrammar` | pty/manager.go:413-1108 | each session's events are none or a prefix of Opened Output(1..n) Exited (Removed, or Retained then Evicted or Removed) |
| `Lifecycle.RegisteredSessionStory` | pty/manager.go:413-1108 | a registered session's events say exactly how many outputs it published and which phase it is in |
| `Lifecycle.StepEmits` | pty/manager.go:413-1108 | a locked section tells observers of at most one event |
| `Lifecycle.SessionLimits` | pty/manager.go:352-1065 | the counters count, active plus starting stay within MaxSessions, the second limit test never fires, and before Close clears the registry opened is registered plus evicted plus removed |
| `Lifecycle.SecondLimitTestIdle` | pty/manager.go:400-412 | an open in progress always finds room after startup |
| `Lifecycle.ExitKeeps` | pty/manager.go:931-946 | the guarded decrement of the active count always happens |
| `Lifecycle.RetainedExactly` | pty/manager.go:970-1065 | the retained list is exactly the retained sessions in retention order, without repeats, within its limit, none of them being removed |
| `Lifecycle.EvictionsKeep` | pty/manager.go:993-1008 | the eviction loop ends, restores the bound and changes neither ids nor generation |
| `Lifecycle.EvictsTheOldest` | pty/manager.go:993-1008 | one retention too many evicts exactly the session retained longest ago |
| `Lifecycle.SettleExactly` | pty/manager.go:970-985 | an exited session is retained last on the list under the retain policy of an open manager, one too many starting the eviction of the first, and removed otherwise |
| `Lifecycle.RemoveExactly` | pty/manager.go:488-511 | Remove starts the removal of exactly the retained sessions of an open manager |
| `Lifecycle.FinishRemovalExactly` | pty/manager.go:1025-1047 | a removal ends once, under its own counter and event |
| `Lifecycle.KillsExactly` | pty/manager.go:856-876 | killing stops exactly a running session |
| `Lifecycle.ExitsExactly` | pty/manager.go:931-946 | a process ends once, with one event |
| `Lifecycle.PublishesExactly` | pty/manager.go:1089-1104 | output is numbered on from the last and told until the process ends |
| `Lifecycle.ClosesExactly` | pty/manager.go:534-600 | Close stops every running session and empties the registry once all have settled |
| `Lifecycle.GenerationFixesIds` | pty/manager.go:413-1056 | the generation never falls, and equal generations at two moments of a run mean equal registered ids |
| `Lifecycle.Registry.BeginOpen` | pty/manager.go:352-375 | grants the next nonzero id exactly when open, below the limit and not exhausted |
| `Lifecycle.Registry.FinishOpen` | pty/manager.go:400-419 | registers the started session unless the manager is closing or full |
| `Lifecycle.Registry.RemoveRetainedID` | pty/manager.go:1058-1065 | the in-place removal deletes the first occurrence only |
| `Lifecycle.Registry.BeginRetainedRemoval` | pty/manager.go:1010-1023 | starts a removal exactly of a retained session not being removed |
| `Lifecycle.Registry.BeginRetentionEvictions` | pty/manager.go:993-1008 | the loop computes the evictions and leaves the list within its limit |
| `Lifecycle.Registry.RemoveSession` | pty/manager.go:1049-1056 | the session leaves the registry and the retained list and the generation grows |
| `Lifecycle.Registry.ExitSession` | pty/manager.go:931-946 | the first locked section after the process ended |
| `Lifecycle.Registry.SettleSession` | pty/manager.go:970-985 | the second locked section retains the session and evicts, or removes it |
| `Lifecycle.Registry.FinishRetainedRemoval` | pty/manager.go:1025-1047 | a removal is finished once, with its own counter and event |
| `Observers.ObserverReceivesPrefix` | pty/manager.go:1401-1508 | what an observer received is a prefix of the events emitted since it subscribed; while it is listed and its worker runs received, held and queued events are all of them and fit the queue, and a listed observer's worker runs until the context is canceled |
| `Observers.ListedMissesNothingExactly` | pty/manager.go:1401-1508 | a listed observer can still be given everything emitted so far if and only if its worker has not returned or it was given everything |
| `Observers.RunLater` | pty/manager.go:1401-1440 | whatever happens later, what an observer received stays, and is final once its worker has returned |
| `Observers.DrainQueue` | pty/manager.go:1401-1440 | while its worker runs, taking and receiving alone deliver the held event and the whole queue in order |
| `Observers.HeldIsLostExactly` | pty/manager.go:1425-1440 | the step that loses the held event of a listed observer is its worker's return on the canceled context, and no other step of anybody |
| `Observers.CanceledWorkerCanLoseAnEvent` | pty/manager.go:1425-1440 | a run in which a listed observer loses the event its worker holds when the context is canceled |
| `Observers.StoppedWorkerCanLoseAll` | pty/manager.go:1401-1508 | for every list of events that fits the queue, a run in which they are queued to a listed observer whose worker has returned, so that it never receives any |
| `Observers.OnlyOverflowDrops` | pty/manager.go:1462-1508 | emitting drops a listed observer if and only if the event would overflow its queue |
| `Observers.SubscribesExactly` | pty/manager.go:514-530 | who may subscribe, and the 64 bytes beside its data or the 128 bytes an event counts |
| `Observers.JointLog` | pty/manager.go:1499-1508 | in the machine of registry and observers, observers are told exactly what the registry emits, in that order |
| `Observers.ObserverSeesGrammar` | pty/manager.go:1401-1508 | what was told of a session before an observer subscribed, followed by what the observer received of it, is nothing or a beginning of a grammatical story, in every joint run |
| `Observers.Subscription.Enqueue` | pty/manager.go:1462-1476 | queues an event exactly when open and within the byte limit |
| `Observers.Subscription.Next` | pty/manager.go:1401-1424 | returns the oldest event, the end when closed or the context ends the wait, or nothing yet |
| `Observers.Subscription.Finish` | pty/manager.go:1478-1492 | discards the queue and closes |
| `Observers.Manager.constructor` | pty/manager.go:319-336 | a new manager lists no observer |
| `Observers.Manager.Subscribe` | pty/manager.go:514-530 | lists a new empty subscription under a new number exactly when open and below the limit |
| `Observers.Manager.Unlist` | pty/manager.go:1455-1458 | takes one observer off the list |
| `Observers.Manager.EmitLocked` | pty/manager.go:1499-1508 | the loop gives the event to every observer with room, unlists exactly the others and keeps the list well formed |
| `Cursor.Base64RoundTrip` | pty/protocol.go:685-692 | base64url without padding decodes to what was encoded, for every byte string |
| `Cursor.CursorRoundTrip` | pty/protocol.go:685-703 | a cursor handed out decodes to its generation and position, for all 64-bit values |
| `Cursor.CursorText` | pty/protocol.go:685-687 | a cursor is the base64url text of generation, colon and position |
| `Cursor.DecimalIsBaseTen` | pty/protocol.go:685-687 | both are written in decimal without leading zeros |
| `Cursor.LettersAreTheAlphabet` | pty/protocol.go:685-692 | the letters are the base64url alphabet in its order |
| `Cursor.SameBits` | pty/protocol.go:685-692 | each group of bytes and its sextets are the same bits, most significant first, short groups filled with zeros |
| `Cursor.DecodesExactly` | pty/protocol.go:688-703 | a cursor is accepted if and only if its text is two numbers with one colon between them |
| `Cursor.ParsesExactly` | pty/protocol.go:697-702 | which digit strings are a generation, and which, with an optional sign, a position |
| `Pagination.ListSnapshot` | pty/manager.go:439-449 | collecting over the map and sorting gives each registered session once, ascending by id |
| `Pagination.ShrunkEndIsGreatest` | pty/protocol.go:362-375 | shrinking stops at the longest page that fits |
| `Pagination.Shrink` | pty/protocol.go:362-375 | the loop computes that end |
| `Pagination.HandleList` | pty/protocol.go:332-383 | the handler computes the reply, errors included, and panics if and only if position and limit are valid and their wrapping sum overflows |
| `Pagination.ListCrashesExactly` | pty/protocol.go:358-383 | the reply is a panic if and only if position and limit are valid and their sum exceeds an int |
| `Pagination.ListCanCrash` | pty/protocol.go:358-383 | one session, the cursor behind it and the largest valid limit panic, at any frame limit |
| `Pagination.PageRefusedExactly` | pty/protocol.go:376-378 | a page is refused as too large if and only if no nonempty page within the limit fits |
| `Pagination.PageAdvances` | pty/protocol.go:358-383 | an accepted page carries the next ids in order, at least one if any is left, and a cursor exactly when more follow |
| `Pagination.PageIsLongest` | pty/protocol.go:358-383 | an accepted page fits the frame limit with its cursor, is within the requested limit, and no longer one fits |
| `Pagination.RefusedExactly` | pty/protocol.go:332-357 | the refusals of a list request from its limit, its cursor and the snapshot, a limit of 0 asking for the most |
| `Pagination.CursorStart` | pty/protocol.go:347-354 | a cursor is accepted at its own generation and refused at every other |
| `Pagination.PagesCoverTheList` | pty/protocol.go:332-383 | following cursors under any limits and sizes collects a prefix of the first list, all of it when no cursor is left, one id or more per page |
| `Pagination.ListingCompletes` | pty/protocol.go:332-383 | while the generation stands and single entries fit, no request is refused and as many requests as sessions return every id |
| `Pagination.ListingIsExact` | pty/protocol.go:332-383 | over a running registry a listing that ends without an error returned exactly the ids registered when it began, once, ascending |
| `ReplayFraming.Sink.Send` | pty/protocol.go:572-603 | sends one event and, behind the last replayed one, the end mark, once; each send may also fail before or after the peer queued its frame |
| `ReplayFraming.SinkSendsExactly` | pty/protocol.go:572-603 | the frames of one call of the sink for every outcome of its sends, an output frame carrying exactly the output's data |
| `ReplayFraming.SinkInTwoSteps` | pty/protocol.go:572-603 | the two sends the machine makes are one call of the sink |
| `ReplayFraming.EndsReplayExactly` | pty/protocol.go:585-591 | the delivery whose sequence is ReplayLast is the last of the captured ones, and no other |
| `ReplayFraming.SendIsRender` | pty/protocol.go:585-591 | the end mark is owed exactly behind the delivery that ends the replay, whatever the sink's flag |
| `ReplayFraming.TranscriptExactly` | pty/protocol.go:416-603 | the transcript frame by frame: response, begin mark, the data of each captured chunk, end mark, all of each output from NextLive on, exit |
| `ReplayFraming.ErrorsDetach` | pty/protocol.go:448-472 | a send with an error detaches |
| `ReplayFraming.AttachFramesInOrder` | pty/protocol.go:416-603 | in every run, whatever outcome each send has, the frames of one attach are a prefix of AttachResponse ReplayBegin Output^k ReplayEnd Output* Exit with exactly the k captured chunks before the end mark and the published outputs after it |
| `ReplayFraming.AttachFramesComplete` | pty/protocol.go:416-603 | an attachment that drained, or is in its table and caught up, has sent all of it if its sink saw no error |
| `ClientView.RunKeeps` | pty/protocol.go:416-603 | in every run of manager, protocol and both peers, and other responses aside, the server's peer has accepted on the stream exactly the frames of the attach, in order |
| `ClientView.ClientSeesAttach` | pty/protocol.go:416-603 | other responses aside the client has read a prefix of the whole transcript, and its handlers started on a prefix of it without the response, although output travels as bulk and the marks and the exit as control |
| `ClientView.EncodedExactly` | pty/protocol.go:572-680 | the type, flag, stream, payload and class each frame travels under |
| `ClientView.ClientGetsTheData` | pty/protocol.go:416-603 | the payloads the client's handlers start on: the begin mark, the data of each captured chunk, the end mark, each output from NextLive on, whole |
| `ClientView.ClientSeesAll` | pty/protocol.go:416-603 | once the attach finished its work and the stream is quiet, the client's handlers started on all of it |

## Left out

- The operating-system backends, `pty/bridge.go`, `pty/pty.go` and `pty/size_codec.go`: a process is only a source of nonempty outputs followed by an exit.
- JSON, authorization, error-code mapping and filters: the reply size is an arbitrary function, the session details an opaque text, and encoding never fails.
- Peer and manager configuration defaulting: limits are the values after it, with what the constructors demand of them.
- Timers, contexts and signals: each is a step that may happen at any time (a wake, a cancel, a finish, a kill).
- Statistics snapshots and the exact moment statistics are recorded, so Attached and Detached events are only carried by observers and are not ordered against the lifecycle events.
- Fairness between streams inside one traffic class: the shared cursor does not give it, and only the class share is claimed.
- The sequence, history-order and generation counters are unbounded; their 64-bit wrap-around is not modelled. The session and correlation counters do wrap.
- Scheduler.WeightedShare: is about selections; a class with no ready head before one of them has no claim on that window.
- Correlation.Table.AbandonPending: is called only with an id its caller has labelled and still owns, as Call does; an abandon by a caller whose id was meanwhile reused after 2^64 further calls is not modelled.
- Correlation.RunKeeps: reserving takes any free id there; which one the code takes is stated by Correlation.Table.ReservePending.
- Inbound.OneWorkerPerStream: a worker is identified by its cell, a number that is never reused.
- Scheduler.Outbox.SelectNext: the turn is the class itself where the code keeps an index into a list of three.
- Replay.ReplayJoinsLive: the limit on attachments per session and the exhaustion of attachment ids are not modelled; they only refuse attachments.
- Lifecycle.RunKeeps: history and attachments are in Replay, and a session is a value in the registry where the code holds a reference; ids are never reused, so both name the same session.
- Observers.Manager.EmitLocked: returns the ids of the dropped observers where the code returns the observers.
- ReplayFraming.AttachFramesInOrder: is about one attach at a time; detach requests, the error event after a failure and the table of attachments by stream are not part of it. A send's outcome is fixed when its frame is queued, where the code waits for the write.
- ClientView.ClientSeesAttach: besides the attach only responses to other requests are sent on its stream in that run, from its start; a second attach after a detach and the error event after a failure are not part of it.
- Calls.CallGetsItsOwnResponse: requests are sent by Call only, not by handing Send a frame flagged as a request; a call whose id is reused after 2^64 calls may be given the response to an older call with that id.
- Pagination.ListSnapshot: the library sort is an insertion sort here.
- Session input, resize and inspect handlers, and copies of payloads: easy members only.
