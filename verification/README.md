# Edge gateway: a verified model of its protocol core

The gateway receives commands over MQTT, sends them to a microcontroller node over a
serial line and publishes exactly one answer for each. This project models the parts that
have to be right for that, and proves what they promise:

* the **selective-repeat command protocol**: the gateway's `CommandTracker`, the node's
  `edge_sr.c`, and the two together over a channel that may lose, delay, duplicate and
  reorder anything (`Protocol`, `Receiver`, `SlotReceiver`, `NodeTheorems`, `WrapClock`,
  `WrapSpacing`, `Tracker`, `TrackerObject`, `TrackerTheorems`, `Sends`, `Sender`,
  `SenderTheorems`, `Handshake`, `SrSystem`, `SrTheorems`, `SrRuns`);
* the **frame layer**: CRC-16/MODBUS, encoder and incremental parser (`Crc16`,
  `FrameCodec`, `FrameParser`, `FrameTheorems`, `WireExamples`);
* the **accounting of commands across threads**: admission credits, mailboxes with a
  completion reserve, and shutdown (`Mailbox`, `Accounting`, `AccountingInv`,
  `AccountingMoves`, `AccountingSteps`, `AccountingTheorems`, `AccountingWitness`);
* **both together**, from the MQTT message to the node and back (`EndToEnd`, `Answers`,
  `AnswerContent`, `Rejections`, `Terminal`, `EndToEndRun`);
* three **stateful loops**: the serial output queue (`OutputQueue`, `NodeOutput`,
  `OutputTheorems`, `OutputPermission`), the telemetry writer (`TelemetryWriter`) and the buffered logger
  (`AsyncLog`, `LoggerObject`).

## How it is built

Code that updates fields in place is a class whose methods carry loops and invariants
(`SlotReceiver.NodeReceiver` over its array of sixteen slots, `TrackerObject.CommandTracker`,
`FrameParser.Parser`, `NodeOutput.NodeLink`, `LoggerObject.AsyncLogger`,
`Mailbox.TaskExecutor`). Each method is proved to change the object's value as a function on
values says (`State()` or `View()` before and after). The properties are then proved of those
functions over every run: a run is a list of events, and every state of every run is covered.

The clock, the node's execution hook, `write`, the send predicate, "is the queue empty right
now" and the thread schedule are arbitrary: oracle functions, scripts or free steps. The
channel between gateway and node is the set of everything ever handed to the output queue
and everything the node ever emitted; any of it may arrive at any time, any number of times,
or never. The node starts inactive with an arbitrary session high-water mark.

The accounting model is a relation between states, one predicate per atomic operation or
locked section of GatewayCore, GatewayApp and TaskExecutor; `Accounting.Step` lets any thread
go next. An MQTT message that won a credit is a *ticket*; conservation is stated with
multisets, so that "exactly once" is an equation.

## Main results

* The node executes a subsequence of what the gateway submitted, unaltered, no
  (session, number) twice, gapless from zero in every session
  (`SrTheorems.ExecutesInOrderAtMostOnce`); a reported success is one real execution with the
  bytes the execution hook gave for it (`SrTheorems.NoFalseSuccess`); a session once left or closed is dead
  (`SrTheorems.SessionFence`); the windows always overlap as needed
  (`SrTheorems.WindowAgreement`).
* What each side does with each message or tick is given exactly, with the numbers written
  out, and not by naming the function that does it (`NodeTheorems`, `TrackerTheorems`): which
  frames a node emits, what it executes and what it keeps; which commands a tick repeats,
  whom it blames and what it reports when it gives up, and what may be written.
* These results are not empty: from every start with a session number left the two ends can
  connect, and from no other (`SrRuns.ConnectsUnlessExhausted`); every command to which the
  hook gives a well-formed reply can be executed and reported as a success, also when its
  first copy is lost (`SrRuns.CommandsSucceed`), all the way to the answer the MQTT client
  gets (`EndToEndRun.SuccessIsPossible`).
* Against arbitrary incoming frames the gateway sends each command at most four times,
  reports each exactly once, and does so by the first tick ten seconds after submission
  (`SenderTheorems`).
* A node on the wrapping 32-bit clock is indistinguishable from one on an unbounded clock
  as long as calls are close enough to the previous call's last expiry scan
  (`WrapClock.WrappingClockIsInvisible`), or to its last clock reading unless it executed
  number 255 (`WrapSpacing.SpacedReadingsSuffice`). A single scan, and a single resend pass,
  is right if and only if no age that matters has wrapped out of sight
  (`WrapClock.ScanExact`, `WrapClock.ResendExact`).
* The byte-at-a-time parser finds exactly what a whole-buffer reading finds
  (`FrameTheorems.ParserIsScan`); from this follow soundness, completeness between noise for
  any chunking, and detection of any one altered byte after LEN.
* The table-driven CRC is the bitwise shift register (`Crc16.UpdateIsStep`).
* Every interleaving, through shutdown: no completion, terminal publication, reload or query
  is ever refused (`AccountingTheorems.ReserveSuffices`), and every message that took a
  credit has exactly one answer and one credit release
  (`AccountingTheorems.ExactlyOneTerminal`).
* End to end: whoever has been answered was given one answer, and if it reports success,
  the client's own command was executed by the node, exactly once, and the hook gave the
  bytes of the answer (`Answers.AnsweredTruthfully`). The answer is the completion of the
  client's own request, and says success if and only if the tracker reported one for it
  (`AnswerContent.AnswersAreExact`); a command once queued is rejected only for cause
  (`Rejections.RejectedForCause`), and whatever the node sends, no client is ever answered
  "invalid_result" (`Terminal.NeverInvalid`).
* Until a hard error the kernel receives whole frames in order plus a begun one, and a
  parser reading them hands over exactly the frames reported as sent
  (`OutputTheorems.NodeReadsWhatWasCompleted`). A frame begins only in a round whose send
  predicate allowed it, and none fails but one withdrawn in time
  (`OutputPermission.PermissionObeyed`).

## Where the code and a natural reading differ

* *Wrapping clock.* It is not enough that calls are close to the previous call's last clock
  reading: executing number 255 ends a call without an expiry scan, and a result filed
  earlier can then survive a full turn of the counter
  (`WrapSpacing.LastReadingIsNotEnough`, from a sound state at rest and through whole calls).
  If no call but the last executes number 255, spacing by readings is enough
  (`WrapSpacing.SpacedReadingsSuffice`).
* *OPEN budget.* At most four OPENs are handed out per session number. Per handshake the
  bound of four fails: a refusal accepted while a retry is still unwritten hands out an OPEN
  that no counter sees. `Handshake.OpensExact` gives the exact count in every history;
  `Handshake.BeyondFourIffLate` says that an unanswered handshake with time left can go
  beyond four if and only if it accepted such a refusal; `Handshake.UpToSevenOpens` shows
  handshakes with five and seven OPENs, and `Handshake.AtMostSeven` that there are never more
  if the node refuses only numbers whose OPEN was written. Against refusals of OPENs never
  written there is no bound (`Handshake.ForgedRefusals`).

## Model

| member | source | states |
|---|---|---|
| Protocol.ReadU64 | protocol/include/edge_proto/edge_proto.h:131-137 | the loop computes the big-endian value of eight bytes |
| Protocol.WriteU64 | protocol/include/edge_proto/edge_proto.h:139-145 | the loop leaves exactly the big-endian bytes of the value in the buffer, nothing else touched |
| Protocol.SessionRoundTrip | protocol/include/edge_proto/edge_proto.h:131-145 | reading the session of a payload that begins with a written session gives it back |
| Protocol.BigEndianOfValue | protocol/include/edge_proto/edge_proto.h:131-145 | writing what was read restores the bytes; together with ValueOfBigEndian the two are inverse |
| Protocol.ValueOfBigEndian | protocol/include/edge_proto/edge_proto.h:131-145 | reading what was written restores the value |
| SlotReceiver.NodeReceiver.constructor | protocol/src/edge_sr.c:9-14 | a new node has session 0, base 0, no entry, and is inactive |
| SlotReceiver.NodeReceiver.FindEntry | protocol/src/edge_sr.c:16-23 | finds the slot of an occupied number, or says that none holds it |
| SlotReceiver.NodeReceiver.EmitReceived | protocol/src/edge_sr.c:25-31 | emits RECEIVED with the node's session and the number |
| SlotReceiver.NodeReceiver.EmitResult | protocol/src/edge_sr.c:33-43 | emits RESULT with session, number, command and exactly the stored result bytes |
| SlotReceiver.NodeReceiver.Expire | protocol/src/edge_sr.c:46-60 | the slot loop closes the session on an overdue follower of a gap, else drops exactly the stale results |
| SlotReceiver.NodeReceiver.Deliver | protocol/src/edge_sr.c:62-82 | the loop executes consecutive numbers from base while they are buffered, scanning before each |
| SlotReceiver.NodeReceiver.OnFrame | protocol/src/edge_sr.c:84-118 | state, emissions and executions after any frame are those of the value machine; nothing executable is left behind |
| SlotReceiver.NodeReceiver.Open | protocol/src/edge_sr.c:94-110 | a higher session supersedes, the same live one is confirmed, anything else refused with the high-water mark |
| SlotReceiver.NodeReceiver.ResultAck | protocol/src/edge_sr.c:114-117 | an exact acknowledgement frees the filed result and nothing else |
| SlotReceiver.NodeReceiver.OnCommand | protocol/src/edge_sr.c:119-149 | replay, left of window, right of window, full pool and store-then-deliver, each as the value machine says |
| SlotReceiver.NodeReceiver.OnTick | protocol/src/edge_sr.c:152-166 | resends exactly the results whose acknowledgement is overdue, once each, and bumps only those |
| Receiver.OnFrameKeeps | protocol/src/edge_sr.c:84-150 | every call keeps: buffered numbers in [base, base+8), executed ones below base, inactive means empty, log a gapless chain, everything emitted true and still true |
| Receiver.OnTickKeeps | protocol/src/edge_sr.c:152-166 | the same for a tick |
| Receiver.ChainOrder | protocol/src/edge_sr.c:62-82 | (session, number) strictly increases along the execution log |
| Receiver.ExecutedLeftOfEdge | protocol/src/edge_sr.c:128-132 | whatever ran in the live session is left of base, so it can never run again |
| Receiver.FullPoolRefuses | protocol/src/edge_sr.c:134-140 | a full pool neither confirms nor evicts |
| NodeTheorems.OnFrameFromHook | protocol/src/edge_sr.c:62-80 | over any frame: the executions carry the hook's replies one by one, a reply of 1 to 53 bytes as it is and any other as the single byte 2 |
| NodeTheorems.ScanExpires | protocol/src/edge_sr.c:46-60 | every call first closes the session if a command behind a gap is four seconds old, else forgets exactly the results five seconds old |
| NodeTheorems.DeliverExact | protocol/src/edge_sr.c:62-82 | delivery executes exactly the waiting numbers from base to the first missing one, as stored, with the hook's next replies, each result sent once |
| NodeTheorems.AllFiled | protocol/src/edge_sr.c:62-82 | each of them stays on file under its number, with the time it ended and no retry, until a scan finds it too old or the session closes |
| NodeTheorems.KeptAside | protocol/src/edge_sr.c:62-82 | what waits beyond the first missing number is untouched |
| NodeTheorems.OpenAnswered | protocol/src/edge_sr.c:94-110 | one answer with the higher of the two sessions, accepting if and only if the session is new or the present live one; only a new one changes the node |
| NodeTheorems.AckFrees | protocol/src/edge_sr.c:114-117 | an acknowledgement frees that filed result and does nothing else |
| NodeTheorems.ReplayAnswered | protocol/src/edge_sr.c:119-127 | the same command again is confirmed, with its result if it has run; another one under that number is ignored; nothing is run |
| NodeTheorems.OutsideAnswered | protocol/src/edge_sr.c:128-140 | left of the window only confirmed; beyond it, or with a full pool, ignored |
| NodeTheorems.NewCommandAnswered | protocol/src/edge_sr.c:128-149 | a new command in the window is confirmed first, then everything up to the first missing number is executed and nothing else |
| NodeTheorems.NewCommandFiled | protocol/src/edge_sr.c:134-149 | and each of these results is kept, and what waits beyond the gap is untouched |
| NodeTheorems.TickAnswered | protocol/src/edge_sr.c:152-166 | a tick sends exactly the results unconfirmed for half a second and repeated fewer than three times, once each, and counts and stamps exactly those |
| TrackerObject.CommandTracker.Begin | src/gateway/link/CommandTracker.cpp:48-67 | opens a strictly higher session with an empty window, or fails at 2^64 - 1 |
| TrackerObject.CommandTracker.Start | src/gateway/link/CommandTracker.cpp:69-76 | aborts every entry in number order and opens the next session |
| TrackerObject.CommandTracker.EndSession | src/gateway/link/CommandTracker.cpp:105-113 | reports every entry, the failed one with its own reason, and opens the next session |
| TrackerObject.CommandTracker.Submit | src/gateway/link/CommandTracker.cpp:78-91 | accepts exactly when ready, the window and the numbers have room and the arguments fit; then numbers, files and returns the frame |
| TrackerObject.CommandTracker.Receive | src/gateway/link/CommandTracker.cpp:93-99 | marks the number and moves base to the first gap |
| TrackerObject.CommandTracker.OnWritten | src/gateway/link/CommandTracker.cpp:128-153 | counts a completed write, or aborts on expiry or failure, or ignores a stale one |
| TrackerObject.CommandTracker.OnOpenAck | src/gateway/link/CommandTracker.cpp:159-181 | ready, next session above the high-water mark, or failed |
| TrackerObject.CommandTracker.OnResult | src/gateway/link/CommandTracker.cpp:193-204 | a first result completes, acknowledges and may roll the session over; a repeated one is only acknowledged |
| TrackerObject.CommandTracker.OnFrame | src/gateway/link/CommandTracker.cpp:155-205 | new state, frames to send and reports after any incoming frame |
| TrackerObject.CommandTracker.Tick | src/gateway/link/CommandTracker.cpp:207-238 | handshake retry or failure, abort on the first hopeless entry, else requeue exactly the overdue ones |
| Tracker.AbortedListing | src/gateway/link/CommandTracker.cpp:105-113 | the abort report lists every entry once, in order, under its own type |
| Tracker.OnFrameKeeps | src/gateway/link/CommandTracker.cpp:155-205 | any frame keeps the window invariant, and the reports are exactly the entries that left |
| Tracker.OnWrittenKeeps | src/gateway/link/CommandTracker.cpp:128-153 | the same for a write |
| Tracker.TickKeeps | src/gateway/link/CommandTracker.cpp:207-238 | the same for a tick |
| Tracker.TickDeadline | src/gateway/link/CommandTracker.cpp:224-230 | a tick past a deadline ends every entry, each reported as failed |
| TrackerTheorems.TickRetransmits | src/gateway/link/CommandTracker.cpp:224-236 | with nothing to give up on, a tick sends exactly the commands written, unacknowledged and last sent half a second ago, once each, in number order, as their next attempt; exactly these wait again |
| TrackerTheorems.TickGivesUp | src/gateway/link/CommandTracker.cpp:224-230 | with an entry unacknowledged for 4 s, without result for 10 s or out of retries, it blames the lowest such number, reports all others as aborted with it and opens the next session |
| TrackerTheorems.TickReopens | src/gateway/link/CommandTracker.cpp:207-221 | while opening it repeats the OPEN half a second after writing, four at most, and fails if and only if they are used up or four seconds are over |
| TrackerTheorems.SubmitFiles | src/gateway/link/CommandTracker.cpp:78-91 | a command is taken exactly under the source's five conditions, then waits unsent under the next number with its frame handed out |
| TrackerTheorems.WriteCounted | src/gateway/link/CommandTracker.cpp:149-152 | a completed write is counted and stamped, nothing else changes |
| TrackerTheorems.WriteTooLate | src/gateway/link/CommandTracker.cpp:147-147 | a write after the deadline ends the session as a timeout of that command |
| TrackerTheorems.WriteFailed | src/gateway/link/CommandTracker.cpp:148-148 | a failed one as a failed send of that command |
| TrackerTheorems.ResultShape | src/gateway/link/CommandTracker.cpp:10-24 | a result passes if and only if its code is 0 to 3, alone unless a query succeeded, which has two or four more bytes |
| TrackerTheorems.FirstResult | src/gateway/link/CommandTracker.cpp:190-204 | a good first result completes that command with exactly its bytes and is acknowledged; a bad one changes nothing |
| TrackerTheorems.RepeatedResult | src/gateway/link/CommandTracker.cpp:193-196 | a repeated one is acknowledged again and changes nothing |
| TrackerTheorems.ReceivedMarks | src/gateway/link/CommandTracker.cpp:186-189 | RECEIVED marks exactly that number |
| TrackerTheorems.OpenAccepted | src/gateway/link/CommandTracker.cpp:159-168 | an acceptance in time makes the tracker ready |
| TrackerTheorems.RefusalAdopted | src/gateway/link/CommandTracker.cpp:169-179 | a refusal makes it ask for the session after the one named, or fail if there is none or four OPENs were written |
| TrackerTheorems.LastResultRollsOver | src/gateway/link/CommandTracker.cpp:101-103 | the session is left if and only if the last of 256 results has come |
| TrackerTheorems.OpenAllowedIffCounted | src/gateway/link/CommandTracker.cpp:115-140 | an OPEN may be written if and only if its write would be counted |
| TrackerTheorems.CommandAllowedIffCounted | src/gateway/link/CommandTracker.cpp:115-152 | a command may be written if and only if its write would be counted |
| TrackerTheorems.AckAllowed | src/gateway/link/CommandTracker.cpp:121-121 | an acknowledgement may be written from the result it answers to the end of that session, and no longer |
| Sends.HistoryGrows | src/gateway/link/CommandTracker.cpp:115-153 | no transmission (type, session, number, attempt) is ever handed out twice |
| Sender.AdvanceInv | src/gateway/link/CommandTracker.cpp:48-238 | any input keeps: valid window, ordered submissions, honest transmissions, every submission accounted for |
| SenderTheorems.SenderWindow | src/gateway/link/CommandTracker.cpp:78-99 | in every state at most eight in flight, only when ready, and base is the first unreceived number |
| SenderTheorems.AtMostFourCopies | src/gateway/link/CommandTracker.cpp:128-153 | each command, and the OPEN of each session number, is handed out at most four times with the same bytes |
| SenderTheorems.CancellingIsSafe | src/gateway/link/CommandTracker.cpp:115-153 | dropping a frame that is no longer wanted and reporting it unwritten changes nothing unless its own deadline has passed; dropping a wanted one is always noticed |
| Handshake.OpensExact | src/gateway/link/CommandTracker.cpp:128-181 | in every history the OPENs of an open handshake are those written, the one waiting and one per refusal accepted while an OPEN was unwritten; at most four without such a refusal, and once the budget is used up only then |
| Handshake.BeyondFourIffLate | src/gateway/link/CommandTracker.cpp:159-181 | with time left, an unanswered handshake can go beyond four OPENs if and only if it accepted a refusal while an OPEN was unwritten |
| Handshake.UpToSevenOpens | src/gateway/link/CommandTracker.cpp:159-219 | histories whose handshake hands out one, three, five and seven OPENs, every refusal answering a written OPEN |
| Handshake.AtMostSeven | src/gateway/link/CommandTracker.cpp:128-181 | never more than seven if refusals come only for numbers whose OPEN was written |
| Handshake.ForgedRefusals | src/gateway/link/CommandTracker.cpp:169-178 | without that, as many OPENs as there are session numbers |
| SenderTheorems.SessionsIncrease | src/gateway/link/CommandTracker.cpp:48-67 | in every history, whatever opens a session (restart, abort, rollover, refusal) takes a number above every one a frame was sent or a command submitted under |
| SenderTheorems.SessionsNeverFall | src/gateway/link/CommandTracker.cpp:48-67 | over any inputs the session number never decreases |
| SenderTheorems.SentInSessionOrder | src/gateway/link/CommandTracker.cpp:26-39 | OPENs and commands are handed out in session order |
| SenderTheorems.ExactlyOneReport | src/gateway/link/CommandTracker.cpp:69-238 | each submission is in flight or reported, never both, never twice, under its own type |
| SenderTheorems.EndsWithinTenSeconds | src/gateway/link/CommandTracker.cpp:224-230 | over by the first tick ten seconds after submission, whatever happened in between |
| SrSystem.NextInv | protocol/src/edge_sr.c:84-166 | every joint step keeps the fence, the window agreement and the honesty of all reports |
| SrTheorems.ExecutesInOrderAtMostOnce | protocol/src/edge_sr.c:62-150 | executions are a subsequence of submissions, unaltered, no key twice, a prefix of the numbers in every session |
| SrTheorems.NoFalseSuccess | src/gateway/link/CommandTracker.cpp:182-204 | a reported success is exactly one execution of that submission, with the bytes the hook replied |
| SrTheorems.SessionFence | protocol/src/edge_sr.c:94-111 | ready implies the node is in that session; nothing of a left or closed session executes ever again |
| SrTheorems.WindowAgreement | protocol/src/edge_sr.c:128-133 | tracker.base <= node.base <= tracker.next <= tracker.base + 8 when both are live; the right-of-window drop never meets any command ever sent in the node's live session, whether or not the gateway is still in it |
| SrTheorems.ResultStability | protocol/src/edge_sr.c:69-80 | all RESULT frames ever emitted for one (session, number) are equal |
| SrTheorems.ReceivedMeansHeld | protocol/src/edge_sr.c:119-149 | after RECEIVED the command stays stored or executed until the session closes or is superseded |
| SrTheorems.OnFrameCache | protocol/src/edge_sr.c:119-132 | replays change neither age nor retry count of a filed result; a result that appears was executed in that call |
| SrTheorems.AtMostThreeResends | protocol/src/edge_sr.c:157-164 | the timer repeats one result at most three times, ever |
| SrRuns.ConnectsUnlessExhausted | protocol/src/edge_sr.c:94-110 | gateway and node can get ready in one session if and only if the node's high-water mark is below 2^64 - 1 |
| SrRuns.CommandsSucceed | src/gateway/link/CommandTracker.cpp:207-238 | from every start with a session left, every command with a well-formed reply has a run that executes and reports it, also one in which only the retransmission arrives |
| WrapClock.WrappingClockIsInvisible | protocol/src/edge_sr.c:46-66 | with calls spaced by expiry scans the wrapping and the unbounded clock give the same frames and the same executions |
| WrapSpacing.SpacedReadingsSuffice | protocol/src/edge_sr.c:46-82 | the same with calls spaced by clock readings, if no call but the last executes number 255 |
| WrapClock.DecisionsAgree | protocol/src/edge_sr.c:51-58 | gap expiry, result lifetime and resend decisions are equal under both clocks |
| WrapClock.ScanExact | protocol/src/edge_sr.c:46-60 | a scan is right if and only if no age that matters has wrapped out of sight |
| WrapClock.ResendExact | protocol/src/edge_sr.c:157-164 | a tick picks the right results if and only if no result due for a resend has an age that wrapped out of sight |
| WrapSpacing.LastReadingIsNotEnough | protocol/src/edge_sr.c:62-82 | from a sound state at rest, calls spaced by readings of which one executes number 255, and the two clocks differ |
| Crc16.Crc16 | protocol/src/edge_crc16.c:51-57 | the loop over the table gives the bitwise CRC of the data |
| Crc16.TableIsRegister | protocol/src/edge_crc16.c:10-43 | each of the 256 entries is eight shifts of its index |
| Crc16.ShiftCases | protocol/src/edge_crc16.c:10-12 | one shift is the reflected polynomial A001 rule, by cases on the bit that falls out |
| Crc16.UpdateIsStep | protocol/src/edge_crc16.c:46-49 | one table look-up is eight register shifts |
| Crc16.Residue | protocol/src/edge_crc16.c:46-57 | data followed by its check value, low byte first, leaves zero |
| Crc16.OneByteChanges | protocol/src/edge_crc16.c:46-57 | replacing any one byte changes the check value |
| FrameParser.EncodeInto | protocol/src/edge_frame.c:10-43 | the buffer begins with the wire form and is otherwise untouched; 0 and no write for an oversized payload |
| FrameTheorems.ResetForgets | protocol/src/edge_frame.c:45-56 | after a reset in any state, what is added are exactly the frames and errors the following stream holds by itself; earlier counts and frames stay |
| FrameParser.Parser.DeliverFrame | protocol/src/edge_frame.c:65-79 | hands over or counts and resynchronises, by comparing the trailer |
| FrameParser.Parser.FeedByte | protocol/src/edge_frame.c:101-172 | one byte moves the parser as the value machine says |
| FrameParser.Parser.FeedBuffer | protocol/src/edge_frame.c:174-181 | a buffer is its bytes one by one |
| FrameTheorems.ParserIsScan | protocol/src/edge_frame.c:65-172 | frames, order and every error count equal those of reading the whole stream at once |
| FrameTheorems.DeliversOnlyEncodedFrames | protocol/src/edge_frame.c:65-172 | what is delivered was encoded in the stream, in order, without overlap |
| FrameTheorems.AllFramesArrive | protocol/src/edge_frame.c:101-181 | frames between noise without AA 55 all arrive, once, no error counted, for any chunking |
| FrameTheorems.OneAlteredByteIsCaught | protocol/src/edge_frame.c:65-79 | any change of one TYPE, payload or CRC byte: nothing delivered, one CRC error, the rest read as if alone |
| FrameTheorems.HuntsAgain | protocol/src/edge_frame.c:101-172 | from any state, at most 67 bytes until the parser hunts for a header again |
| FrameTheorems.BoundIsTight | protocol/src/edge_frame.c:121-163 | a longest frame needs all 67 |
| FrameCodec.Chunking | protocol/src/edge_frame.c:174-181 | feeding two buffers is feeding their concatenation |
| WireExamples.CheckValue | docs/protocol.md:318-327 | the digits 1 to 9 have the check value 4B37 |
| WireExamples.HeartbeatBytes | docs/protocol.md:498-499 | a frame without payload, byte for byte |
| WireExamples.OpenBytes | docs/protocol.md:585-586 | the OPEN of session 1, byte for byte |
| WireExamples.OpenAckBody | docs/protocol.md:587-588 | its acceptance, from LEN to the last payload byte |
| WireExamples.CommandBody | docs/protocol.md:589-590 | a command to set the period, likewise |
| WireExamples.ReceivedBody | docs/protocol.md:591-592 | its confirmation, likewise |
| WireExamples.ResultBody | docs/protocol.md:593-594 | its result, likewise |
| WireExamples.ResultAckBody | docs/protocol.md:595-596 | the acknowledgement of the result, likewise |
| Mailbox.TaskExecutor.PostTask | src/gateway/core/concurrent/TaskExecutor.h:31-38 | accepts exactly when open and below capacity, plus the reserve for completions |
| Mailbox.TaskExecutor.TakeTask | src/gateway/core/concurrent/TaskExecutor.h:51-65 | first in, first out; none only when closed and empty |
| Mailbox.FirstInFirstOut | src/gateway/core/concurrent/TaskExecutor.h:31-65 | over any sequence of posts, takes and closing, tasks run plus tasks waiting are the accepted ones in order |
| Mailbox.ClosedDrains | src/gateway/core/concurrent/TaskExecutor.h:41-65 | once closed nothing gets in, and what was accepted is run or waits, none lost or reordered |
| AccountingSteps.StepInv | src/gateway/app/GatewayCore.cpp:70-220 | every step of every thread keeps tickets, credits, ids, mailbox room, counters, stages and publications in balance |
| AccountingTheorems.ReserveSuffices | src/gateway/app/GatewayCore.h:57-65 | no completion, barrier, publication, reload or query is ever refused, and the command queue never refuses for capacity |
| AccountingTheorems.AtMostOneTerminal | src/gateway/app/GatewayCore.cpp:83-94 | at every moment each ticket was published at most once, and a credit came back only for a published answer or a refused message |
| AccountingTheorems.ExactlyOneTerminal | src/gateway/app/GatewayApp.cpp:67-86 | after shutdown every ticket was refused at the door or published and released exactly once, and no credit is missing |
| AccountingTheorems.RequestsAreInFlight | src/gateway/app/GatewayApp.cpp:227-284 | requests are exactly the commands in flight; what is queued or finishing is pending, once |
| AccountingTheorems.ReportsReachTheirRequests | src/gateway/app/GatewayApp.cpp:274-284 | each report of the tracker becomes one completion, for the id its command came from, in report order |
| AccountingWitness.AnsweredAndShutDown | src/gateway/app/GatewayApp.cpp:67-86 | a run exists in which a message is answered and shutdown completes, so the results above are not empty |
| EndToEnd.StepInv | src/gateway/app/GatewayApp.cpp:198-284 | every joint step of threads, protocol and node keeps: each id goes out once, as the command it asked for, and completions and answers are about their own command |
| EndToEnd.SuccessIsOwn | src/gateway/app/GatewayCore.cpp:142-161 | an answer of success is exactly one execution of the command its own ticket asked for, with the bytes the hook replied |
| Answers.AnsweredTruthfully | src/gateway/app/GatewayCore.cpp:118-161 | every published ticket has one answer, never changed, and true in that sense |
| AnswerContent.AnswersAreExact | src/gateway/app/GatewayCore.cpp:118-161 | every answer is the completion posted for the ticket's own id, or a rejection of a message never taken; success if and only if the tracker reported success for that command |
| Rejections.RejectedForCause | src/gateway/app/GatewayApp.cpp:234-252 | a command taken is rejected only because the link had failed for good, its arguments did not fit, or the gateway was shutting down |
| Terminal.NeverInvalid | src/gateway/app/GatewayCore.cpp:142-161 | in every history, whatever frames come in, the "invalid_result" cases are never reached: an answer is the reported failure, or exactly what the result bytes encode |
| Terminal.GoodIsSaid | src/gateway/app/GatewayCore.cpp:149-160 | a well-formed result is answered with its code, or its big-endian readings, of its own command |
| EndToEndRun.SuccessIsPossible | src/gateway/app/GatewayApp.cpp:234-284 | for every command with a well-formed reply a run in which its client is answered with success and that reply |
| AccountingInv.CoreHasRoom | src/gateway/app/GatewayCore.h:64-65 | the reserve of 552 always covers the completions outstanding |
| AccountingInv.ManageHasRoom | src/gateway/app/GatewayApp.h:76-76 | the reserve of 528 always covers terminal publications and the one reload |
| AccountingInv.CommandsHaveRoom | src/gateway/app/GatewayApp.cpp:319-323 | the command queue has room for every id submitted |
| AccountingSteps.DriveMatched | src/gateway/app/GatewayApp.cpp:274-284 | tracker reports and the request map leave in step |
| AccountingSteps.PullInMatched | src/gateway/app/GatewayApp.cpp:232-252 | a submitted command gets a number no request holds |
| AccountingMoves.Harvest | src/gateway/app/GatewayApp.cpp:274-284 | every ended request yields exactly one completion, the others stay |
| AccountingSteps.EraseFlow | src/gateway/app/GatewayCore.cpp:129-161 | erasing a pending id hands its ticket to exactly one publication |
| NodeOutput.NodeLink.Enqueue | src/gateway/link/NodeLink.cpp:79-91 | queues the wire form, or says that none can be built |
| NodeOutput.NodeLink.FlushOutput | src/gateway/link/NodeLink.cpp:92-117 | the loop over short writes, interruptions, cancellation and errors does what the value machine says |
| NodeOutput.NodeLink.CompleteHead | src/gateway/link/NodeLink.cpp:119-123 | removes the head, then calls back, which may queue more |
| NodeOutput.NodeLink.DiscardOutput | src/gateway/link/NodeLink.cpp:125-131 | every frame that was waiting is told false, in order, and leaves the queue; what the callbacks queue stays queued behind |
| OutputQueue.TurnInv | src/gateway/link/NodeLink.cpp:92-117 | each turn keeps: completions in queue order once each, true exactly for whole frames, wire = what completions cost plus the begun head |
| OutputTheorems.After | src/gateway/link/NodeLink.cpp:79-131 | that holds after every run of sends and flushes |
| OutputTheorems.WholeFramesInOrder | src/gateway/link/NodeLink.cpp:92-123 | before a hard error the kernel has whole frames in order plus a prefix of the head |
| OutputTheorems.NodeReadsWhatWasCompleted | src/gateway/link/NodeLink.cpp:92-123 | a parser on that stream hands over exactly the frames completed with true |
| OutputPermission.PermissionObeyed | src/gateway/link/NodeLink.cpp:92-131 | in every run each turn withdraws an unbegun head that is not allowed, writes exactly what the kernel takes, or breaks off; until then whatever reached the wire began with permission and whatever was told false was withdrawn |
| OutputPermission.BlockedEndsFlush | src/gateway/link/NodeLink.cpp:109-109 | a full kernel buffer ends the flush and changes nothing |
| OutputPermission.OthersGoOn | src/gateway/link/NodeLink.cpp:94-108 | after a withdrawal, a write or an interruption the flush goes on |
| TelemetryWriter.WriterLoop | src/gateway/pipeline/TelemetryPipeline.cpp:45-85 | merged transactions give every row and every swap in the order of one-job-at-a-time writing; none empty, none grown past the limit by a further job, and while jobs keep coming none cut short below 256 rows |
| TelemetryWriter.RowsFollowSwaps | src/gateway/pipeline/TelemetryPipeline.cpp:51-74 | each row goes to the database in use at its place in the queue and to no other |
| LoggerObject.AsyncLogger.AppendLine | src/gateway/core/log/AsyncLogger.cpp:89-124 | append, close, trim and reuse as the value machine says; the front block is never null |
| LoggerObject.AsyncLogger.CollectBlocks | src/gateway/core/log/AsyncLogger.cpp:149-173 | the locked section swaps blocks and takes queue and drop count together |
| LoggerObject.AsyncLogger.RecycleBlocks | src/gateway/core/log/AsyncLogger.cpp:175-200 | after writing, emptied blocks refill the thread's own pair |
| LoggerObject.AsyncLogger.DrainBlocks | src/gateway/core/log/AsyncLogger.cpp:202-211 | the last section takes everything left |
| AsyncLog.After | src/gateway/core/log/AsyncLogger.cpp:89-200 | in every interleaving: lines whole and in order, closed = handed + queued + dropped, handed in closing order, spares empty, front never null |
| AsyncLog.DrainDone | src/gateway/core/log/AsyncLogger.cpp:202-211 | after the drain no byte is left outside a closed block, and every closed block is handed out or counted as dropped |
| AsyncLog.NoOverflowNoLoss | src/gateway/core/log/AsyncLogger.cpp:100-112 | without a counted overflow nothing at all is lost |
| AsyncLog.AppendExact | src/gateway/core/log/AsyncLogger.cpp:89-124 | an append closes a block only if the line does not fit, and loses something only if 64 blocks are queued: all but the two oldest |
| AsyncLog.CollectExact | src/gateway/core/log/AsyncLogger.cpp:149-173 | a flush round hands over everything closed and the front block if it holds a byte, with the drop count |

## Left out

- HTTP server, MQTT client, SQLite, termios, epoll, eventfd, signalfd and timerfd: thin layers over foreign interfaces; they appear as oracles or logs.
- Mutexes, condition variables and memory order: each locked section or atomic operation is one step.
- Configuration parsing and reload, command text, telemetry decoding, JSON, URLs and number formatting: single-branch facts or library behaviour. Of a terminal answer the topic and the decimal text are not modelled; that it is published, for whom, which report or rejection it carries and which readings it gives, is.
- Gateway restarts, node power loss and anything across boots: the code keeps this state in memory only.
- Replies of the hook that are malformed: the tracker ignores such a result, so the command ends by timeout; the theorems on possible success name the well-formed replies.
- Liveness under fairness: the deadline and retry-bound forms are proved instead.
- Corruption of the LEN byte or of several bytes: CRC-16 gives no unconditional guarantee there.
- Null pointers handed to the C functions, and a parser without a callback; the transient DELIVER state is not a stored state of the model.
- NodeLink::reopen and replacement of the link in a running gateway: the tracker side is the Restart input; the queue side is a new queue.
- GatewayCore and GatewayApp as objects: their operations are steps on values, since what matters is how the threads interleave; the destructor's join is a step that waits.
- The stopping flag: a submission may be refused because of it at any time, which covers every real run.
- Slot-pool exhaustion as an impossibility: it is reachable when acknowledgements are lost; FullPoolRefuses says what happens then.
- Writes of log blocks and their failures: blocks handed to the writer are logged as handed.
- WrapClock.WrappingClockIsInvisible: for whole runs the spacing conditions are shown sufficient; the exact conditions are given per scan and per resend pass, because later ones depend on what earlier ones kept.
- node-sim, documentation, scripts, deployment files, ThreadPool.h: not part of these paths.
