# Knot protocol engine: a verified model

The Knot protocol ties a device (a rope, driven by `KnotClient`) to a hub (`handle_connection`). They share one
bidirectional control stream, and one unidirectional data stream per `create_stream` call; the hub records what it
receives in a deduplicated store and reports it as `HubEvent`s. This project models that engine in Dafny and proves
what its two sides owe each other, over every interleaving of their tasks.

## How the model is laid out

**The control protocol, as a transition system.** `Session.dfy` has one state for both sides: the client's phase,
control queue, pending map, calls and events; the hub's main task, reader, control queue, disconnect flag and event
log; the FIFO wire in each direction; and every data stream with its task. A `Label` is one atomic action of one task,
a run is any sequence of enabled labels, and faults are labels too, so "every run" means every interleaving with cuts,
garbled frames, dying writer tasks and failing calls at any point.

| labels | what takes them | source |
|---|---|---|
| `TieTheKnot`, `ReadReply`, `ReplyMissing` | the client's handshake | src/lib.rs:511-549 |
| `StartCall`, `SendOpen`, `Resume`, `OpenUni`, `SendConfig` | one `create_stream` call: register, send, wake, open, configure | src/lib.rs:686-728 |
| `ClientForward`, `ClientRead`, `ClientReadEnds` | the client's writer and reader tasks | src/lib.rs:554-562, 570-616 |
| `HandleTie`, `TieMissing`, `SendWelcome`, `Announce`, `MakeDirectory`, `MainSwap`, `MainReport` | the hub's main task | src/lib.rs:161-322, 404-408 |
| `HubForward` | the hub's writer task | src/lib.rs:300-311 |
| `HubRead`, `QueueReply`, `HubReadEnds`, `ReaderSwap`, `ReaderReport` | the hub's reader task | src/lib.rs:330-391 |
| `AcceptUni`, `TakeConfig`, `CommitFrame`, `EmitFrame`, `TaskEnds` | the accept loop and one task per data stream, up to the end of its stream | src/lib.rs:393-402, 454-483 |
| `WriteFrame`, `CloseStream`, `ClientSend`, `HubSend` | the two applications: `write_frame`, dropping a `KnotStream`, `control_tx`, `control_sender` | src/lib.rs:641-676, 733-750, 318 |
| faults `CutToHub`, `CutToClient`, `StreamCut` | a wire or a data stream ends, by failure or because a peer has gone, after any of what is on it | src/lib.rs:331-339, 571-579, 466-467 |
| faults `GarbleToHub`, `GarbleToClient` | a frame cannot be parsed, or not even read | src/lib.rs:335-338, 382-384, 575-578, 609-612 |
| faults `ClientWriterStops`, `HubWriterStops` | a writer task ends | src/lib.rs:304-307, 557-559 |
| faults `CallFails`, `WelcomeFails`, `DirectoryFails`, `AcceptFails`, `TaskFails` | `open_uni` or the configuration, the Welcome, the directory, `accept_uni`, or a stream task fails | src/lib.rs:717-721, 297, 322, 393, 454-473 |

Reporting an event and queueing the reply to it are two steps, as are committing a frame and reporting it, and swapping
the flag and reporting the disconnection. A stream task opens the recording file of its topic with its configuration,
and a file can be open once only. The theorems are in `SessionGating` (causality), `SessionProgress` (no lost wakeup),
`SessionQuiescence` (a measure), `SessionLog` (event log), `SessionHandshake` (agreement), `SessionAdmission` (who is
let in), `SessionOrigins` (where the hub's reports come from), `SessionReading` (what each
side makes of what it reads), `SessionSending` (the way to the hub), `SessionStreams` (write-ahead), `SessionReports`
(attribution and order), `SessionFiles` (who gets a recording file), `SessionRest` (every run can settle),
`SessionStranded` (calls that wait for ever) and `SessionAfterwards` (what follows RopeDisconnected), with the invariants
of fault-free runs in `SessionHealth` and concrete runs in `SessionWitness`. A run without faults is one on a connection
that lasts: streams may be finished in it, but neither side hangs up.

**The tasks, as the code runs them.** `Tasks.dfy` has the two reader loops and `create_stream` as classes with fields
updated in place. The client's methods are proved to be the client functions of the transition system (`View`), and a
loop over a whole inbound stream is proved to have one stated effect. `Admission.dfy` does the same for the hub's
handshake, `Transport.dfy` for the in-memory connection, `Identifiers.dfy` for the two process-wide counters.

**The data path.** `DataStream.dfy` runs `write_frame` into bytes and `handle_stream` out of bytes, over the header codec
(`FrameHeader.dfy`, an array filled in place), the framing (`Framing.dfy`) and the store (`Recording.dfy`, a class with
two tables and the plain log they stand for).

**File names.** `SanitizedName.dfy` has the rewrite loop of `sanitized_name`, its round count and the one-pass meaning.

Where the documentation and the code differ, the model follows the code. docs/WIRE.md:66-67 asks the client to wait for
`StreamAccepted`; the hub does not check it (src/lib.rs:393). So a stream id is gated exactly when the hub's application
sends no `StreamAccepted` of its own for that id before its `StreamOpened` (`SessionWitness.GatedUnlessEarly`), and only
for clients that open their streams through `create_stream`: a caller of the public `connection()` (src/lib.rs:637) can
open a stream and send a configuration with no request at all, and the model has no such step. `write_frame` ignores the
timestamp it is given and numbers every stream 1 (src/lib.rs:725, 733). A failed call uses up a sequence number
(src/lib.rs:743), and its frame may still arrive, held back by the framed writer until a later call
(`DataStream.FailedFrameArrives`). Topics with the same words share a recording file, and of two such
streams the one whose task takes its configuration while the other's holds the file is refused (src/lib.rs:462-464), though
`create_stream` succeeded (`SessionFiles.RecordedIffFileFree`). The order of events has no more guarantees than
`SessionAfterwards` states: the reader may report after RopeDisconnected when the accept loop ends first, and frames may
follow it in any case.

## Model

| member | source | states |
|---|---|---|
| `SessionGating.FramesComeAfterStreamOpened` | src/lib.rs:356-371 | In every run, faults included, for every id the hub's application does not accept before its StreamOpened, whatever it does to other ids: each frame reported under the id stands behind a StreamOpened for it, and no call holds a stream under it before |
| `SessionGating.CausalStep` | src/lib.rs:330-481 | Every step of every task keeps the causal chain of an id: as long as the log has no StreamOpened for it, the id is in no reply, accept queue, wire, fulfilled or opened call, or data stream |
| `SessionGating.CausalRun` | src/lib.rs:583-589 | The chain holds in every reachable state |
| `SessionWitness.GatedUnlessEarly` | src/lib.rs:393-402 | The exact condition: for every admitted request and every set of ids the hub's application may accept early, all runs keep an id gated if and only if it is not in the set |
| `SessionWitness.InjectionBreaksTheGate` | src/lib.rs:393-402 | For every id: on a connection without faults, one StreamAccepted for it injected too early, and nothing else injected, leads to a frame under that id with no StreamOpened, because the hub does not check what it accepts |
| `SessionProgress.TokensConserved` | src/lib.rs:686-715 | In a fault-free run a step neither loses nor invents a StreamOpen or StreamAccepted in flight, whatever the id: before plus made equals after plus spent |
| `SessionProgress.NoLostWakeupRun` | src/lib.rs:583-587 | In every fault-free run, with any stream ids and any application traffic, a call that waits with an empty slot has at least one token for its id in flight |
| `SessionProgress.TokenFindsItsCall` | src/lib.rs:583-587 | A StreamAccepted that reaches the client finds the pending entry and a call still waiting behind it |
| `SessionProgress.BalancedRun` | src/lib.rs:686-715 | When stream ids are used once: for every id, tokens in flight equal calls waiting for it, in every reachable state |
| `SessionProgress.OneTokenEach` | src/lib.rs:356-371 | When stream ids are used once: a waiting call has a live pending entry and exactly one token, and every token belongs to a waiting call |
| `SessionProgress.RestMeansDone` | src/lib.rs:678-729 | When a fault-free run has no step of its own left, every create_stream call has returned: with a stream, or failed because a later call took its pending entry; and on every stream, finished or not, that was not refused, every frame written has been stored and reported |
| `SessionProgress.EveryCallGetsItsStream` | src/lib.rs:715-728 | When stream ids are used once, a run at rest has given every call its stream |
| `SessionFiles.RestIsRecorded` | src/lib.rs:462-483 | When a fault-free run is at rest: every stream, finished or not, is recorded whole, or was refused, left no trace, and another stream whose topic has the same words is recorded whole; no two streams still open have topics of the same words; and if no two topics have the same words, all are recorded whole |
| `SessionFiles.RecordedIffFileFree` | src/lib.rs:462-464 | The exact condition: at rest without faults a stream is recorded whole if and only if no other task was at work on a topic of the same words when its own task took its configuration, so "Front Door" beside "front_door" is refused, and recorded when the other has ended |
| `SessionFiles.RefusedIffTaken` | src/lib.rs:458-464 | In every run, faults included, a task that takes its configuration is refused if and only if another task is at work on a topic of the same words at that moment; otherwise it holds a file whose name says the words of its own topic |
| `SessionFiles.FiledRun` | src/lib.rs:458-464 | In every run, faults included: no two stream tasks hold one file, and a stream keeps the topic its own call was given |
| `SessionFiles.OneTaskPerName` | src/lib.rs:462-464 | In every run, faults included: the file a task holds is a clean name with .redb behind it, which splits at its underscores into the words of the stream's topic, and no two tasks at work have topics of the same words |
| `SessionFiles.OneFileOneName` | src/lib.rs:462 | Two topics lead to one recording file if and only if they have the same words |
| `SessionFiles.KeptRun` | src/lib.rs:464-483 | Without faults a refused stream recorded nothing, and another stream whose topic has the same words had got its file; and every stream stays with the call that opened it |
| `SessionQuiescence.EveryRunEnds` | src/lib.rs:330-386 | From any state whatever, every run without new application input or faults is over within that state's weight: requests make one reply each and replies make none, so both sides fall silent |
| `SessionRest.EveryRunSettles` | src/lib.rs:330-386 | Every fault-free run can be continued by the library's own steps until it rests; no such continuation is longer than the weight of the state it starts from; and every one that can go no further has all create_stream calls returned and all frames of streams not refused stored and reported |
| `SessionRest.Settle` | src/lib.rs:554-614 | From any state whatever, taking steps for as long as there are any leads to rest |
| `SessionQuiescence.InternalRunsEnd` | src/lib.rs:554-614 | Steps taken plus the weight left never exceed the weight at the start, for every such run |
| `SessionQuiescence.ClientStepWeight` | src/lib.rs:554-614 | Every step of the client's tasks lowers the weight, the answer to a ping included |
| `SessionQuiescence.HubStepWeight` | src/lib.rs:297-406 | Every step of the hub's tasks lowers the weight, the handshake and the answer to a request included |
| `SessionLog.EventLogDiscipline` | src/lib.rs:313-406 | In every run: RopeConnected first and once, one rope id throughout, RopeDisconnected at most once, none before the session directory exists, exactly one once it was made and both loops have ended, and nothing from the reader after it when the reader won the swap |
| `SessionLog.LogDisciplinedRun` | src/lib.rs:388-406 | The flag, the two loops' positions and the log agree in every reachable state: whoever swapped first has reported or is about to, and nobody else is |
| `SessionAfterwards.SilentUnlessLoopEndsFirst` | src/lib.rs:388-406 | The exact condition: for every admitted request, no StreamOpened or EventReceived follows RopeDisconnected in any run if and only if the accept loop may not end before the reader has swapped the flag |
| `SessionAfterwards.QuietIfReaderFirst` | src/lib.rs:388-390 | In every run, other faults included, in which the accept loop does not end before the swap, nothing of the reader follows RopeDisconnected |
| `SessionAfterwards.EventsMayFollowDisconnection` | src/lib.rs:404-406 | When the accept loop ends first, an event of the reader follows RopeDisconnected |
| `SessionAfterwards.FramesMayFollowDisconnection` | src/lib.rs:475-480 | Frames are not the reader's: even when the reader won the swap, a FrameReceived can follow RopeDisconnected, for every id and frame |
| `SessionHandshake.HandshakeAgreement` | src/lib.rs:281-319 | In every run: a tied client holds the connection id, rope id and metadata the hub allotted to this connection; the rope id is the knot id, an underscore and the rope id it asked for, in this order; all events name that rope; nothing is reported before the Welcome is on the wire, and first RopeConnected with the knot and capabilities asked for and the authenticated node id |
| `SessionAdmission.CanTieIffWanted` | src/lib.rs:214-279 | A client can tie the knot if and only if the policy is open, or its token is the secret, or the custom validator raises no objection, and the capability validator is absent or content |
| `SessionAdmission.RepliesAsOwed` | src/lib.rs:178-297 | In every run: the first frame a waiting hub finds, unless garbled, is the Tie of what the client asked for, with version 1 and its own node id; the one reply is a Welcome exactly for a client that policy and validator let in, and otherwise a Reject with message id, reason and details of the first condition that fails |
| `SessionHandshake.OneReplyThenQueue` | src/lib.rs:297-311 | In every run the hub's wire is one handshake reply and then, only behind a Welcome, a prefix of its control queue in FIFO order; with a live writer, what was sent and what is queued are exactly what was ever enqueued |
| `SessionReading.HubAnswersWhatItReads` | src/lib.rs:331-386 | In every run, faults included: the StreamOpened and EventReceived events of the log are the in-order image of the messages the reader took; the control queue's history is an interleaving of everything the application posted, in order, with the replies to the first of the requests taken, one each and in order; with a live writer none is missing but one about to be queued; nothing is taken behind an unreadable frame |
| `SessionReading.ApplicationSeesTheQueue` | src/lib.rs:570-616 | In every run, faults included and whether or not the writers live: a tied client's application has seen, in order, the first n messages the hub ever queued, minus pings and pongs, and all of them once nothing is left to read; an untied one nothing |
| `SessionReading.OnlyPingsAndPongsHidden` | src/lib.rs:590-607 | What the application does not see of those messages is exactly the pings and pongs |
| `SessionSending.HubReadsTheQueue` | src/lib.rs:331-386 | The mirror image, in every run, faults included: the hub's reader has taken, in order, the first n messages the client ever queued, but for garbled ones, and all once nothing is left to take; when none was garbled, the StreamOpened and EventReceived events are the in-order image of those among the n, and the replies answer the first of the requests among them |
| `SessionOrigins.ReportsHaveOrigins` | src/lib.rs:356-379 | In every run, faults included: a StreamOpened event names the stream id, topic and configuration, each in its place, of a create_stream call the application started, or of a StreamOpen it sent itself; an EventReceived event the variant and data of an Event it sent |
| `SessionOrigins.NothingReadIsMissing` | src/lib.rs:340-381 | In every run: every StreamOpen and Event taken has been reported field for field, and with a live writer every Ping and StreamOpen taken has its answer in the queue |
| `SessionSending.WayRun` | src/lib.rs:554-562 | What the reader has taken, what is on the wire and what is queued are, in this order, what the client queued, but for garbling, cuts and a dead writer |
| `SessionReading.ReadRun` | src/lib.rs:340-385 | Reports, replies and the reply under way agree with what the reader took, in every reachable state |
| `SessionReading.TransitRun` | src/lib.rs:297-311 | While the client reads, its wire is what the hub sent and it has not read, but for garbled frames and what a cut took |
| `SessionHandshake.ShakenRun` | src/lib.rs:537-549 | The handshake invariant of both sides and both wires holds in every reachable state |
| `SessionWitness.HandshakeSucceeds` | src/lib.rs:145-322 | For every setup whose policy and validator admit the request there is a run that ties client and hub, so the theorems are not about unreachable states |
| `SessionAfterwards.AFrameIsReported` | src/lib.rs:356-481 | For every admitted request, id and frame there is a run, without faults or injections, in which the stream is requested, accepted, opened and configured, and the frame written, stored and reported |
| `SessionStreams.RecordingIsWriteAhead` | src/lib.rs:466-481 | In every run, on every stream: frames reported are a prefix of frames committed, at most one behind, and those are a prefix of frames written |
| `SessionStreams.StreamsSafeRun` | src/lib.rs:446-484 | What a stream's task has committed, followed by what is in transit, is what its client wrote, in every reachable state, until a cut or a failure |
| `SessionStreams.ReportsAreEmissions` | src/lib.rs:475-480 | In every run each frame occurs in the hub's log as FrameReceived exactly as often as the stream tasks emitted it |
| `SessionStreams.AcceptedInOrderRun` | src/mock.rs:28-47 | In every run the streams not accepted yet are the last ones opened, in order, and at most 16: the hub accepts them in the order the client opens them, leaving none out |
| `SessionReports.ReportsFollowTheWriter` | src/lib.rs:446-484 | In every run that uses no stream id twice, faults and injected acceptances included: the frames reported under a stream's id are, in order, a prefix of those its own client call wrote, nothing is reported under an id without a stream, and at rest without faults every frame written to a stream, finished or not, that was not refused is there |
| `SessionReports.FaithfulRun` | src/lib.rs:461-480 | Even with ids used again: under an id only one stream bears, the log holds exactly what that stream's task emitted, in order |
| `SessionReports.AttributedRun` | src/lib.rs:692-728 | In every reachable state a stream belongs to one call that opened it, no call has two, and its configuration and its task bear that call's stream id |
| `SessionHealth.HealthyRun` | src/lib.rs:564-729 | Without faults, in every reachable state: wires open and parsed, tasks alive, every pending entry owned by the call that waits for it, every unaccepted stream in the backlog |
| `SessionStranded.WaitsForEver` | src/lib.rs:609-616 | Once the client's reader has ended, a waiting call still waits after any continuation if and only if no later call started with its stream id; otherwise that call took its entry and it can only fail |
| `SessionStranded.ACallIsAbandoned` | src/lib.rs:571-579 | There is such a call, for every id and every admitted request: the wire is cut while it waits |
| `SessionStranded.AbandonedStep` | src/lib.rs:687-690 | No step of either side but such a start changes that |
| `SessionStranded.ForgottenForEver` | src/lib.rs:713-715 | The converse of no lost wakeup: a waiting call with no token in flight waits after any continuation, faults included, in which neither application speaks the stream protocol for its id, as long as no later call starts with that id; after such a start it can only fail |
| `SessionStranded.ACallIsForgotten` | src/lib.rs:554-562 | There is such a call while the client's reader lives: its request is lost with the wire to the hub |
| `SessionStranded.NoTokens` | src/lib.rs:356-371 | The token count is zero exactly when no queue, wire or pending reply holds a request or acceptance for the id |
| `Tasks.HubReader.Loop` | src/lib.rs:331-386 | The replies queued are the in-order image of the requests readable before a read error, one each; the events reported are the in-order image of the StreamOpen and Event messages; malformed frames change nothing |
| `Tasks.HubReader.Handle` | src/lib.rs:340-385 | One message: a Ping gets a Pong with the ping's own timestamp and an id that ends in the ping's, a StreamOpen an acceptance of its stream id and a report with its id, topic and configuration, an Event a report with its variant and data, anything else nothing |
| `Tasks.WhatCounts` | src/lib.rs:341-380 | Of the frames read, exactly the pings and stream requests are requests, and exactly the stream requests and events are reported |
| `Messages.HubReplyAnswers` | src/lib.rs:343-371 | The one envelope that answers a request: source, connection, id, payload and the two clock readings, each in its place |
| `Messages.PongToPongs` | src/lib.rs:590-603 | The one envelope that answers a ping, on either side |
| `Messages.HubReportReports` | src/lib.rs:357-378 | The one event that reports a message, field for field, and that no other message is reported |
| `Tasks.HubReader.Run` | src/lib.rs:330-391 | The loop, and then RopeDisconnected exactly when the flag was not set yet; the flag is set afterwards |
| `Tasks.HubTurn` | src/lib.rs:340-385 | The read and queue steps of the transition system together do to queue and log what Handle does, and return to polling |
| `Tasks.KnotClient.Insert` | src/lib.rs:686-690 | Registers the call under its id; a call already there keeps its place and loses its sender |
| `Tasks.KnotClient.BeginCreateStream` | src/lib.rs:678-715 | The entry is in the map before the request is queued; the request carries the call's stream id, topic and configuration, the client's own rope and connection id, and asks for an acknowledgement; with a dead writer the call fails and its entry stays behind |
| `Tasks.KnotClient.ReadOne` | src/lib.rs:571-613 | One turn of the reader loop is exactly the client's read step of the transition system, and goes on exactly after a well-formed frame |
| `Tasks.KnotClient.ReadLoop` | src/lib.rs:570-616 | The loop takes the turns of exactly the frames before the first malformed or unreadable one, whether or not the writer task lives |
| `Tasks.ReadsAllEffect` | src/lib.rs:581-613 | What those turns do: the application gets everything but pings and pongs, in order; with a live writer each ping gets its pong, in order, and with a dead one nothing is queued; exactly the accepted ids leave the map, and exactly the calls behind them are told |
| `Tasks.ReadsAllPending` | src/lib.rs:583-589 | However often and in whatever order ids are accepted, a call is told if and only if its entry was in the map and its id was accepted; everything else about it is unchanged |
| `Tasks.ReadsAllPongs` | src/lib.rs:590-603 | With a live writer the client answers every ping once, in order, with its own rope and connection id; with a dead one it queues nothing |
| `Admission.HubHandshake.Run` | src/lib.rs:161-297 | No reply unless the first delivery parses as a Tie; otherwise exactly one: a Welcome with freshly drawn ids if and only if node id, version, policy and capability validator all agree, and else a Reject with the message id, reason and details of the first that does not; the clock is read once for the message id and again for the timestamp; the connection counter moves only on admission |
| `Admission.VerdictIsOwed` | src/lib.rs:178-279 | For every configuration and Tie: admission is the conjunction of the four conditions, with the token equal to the secret or the custom validator silent, and the rejection names the first that fails |
| `Admission.ClientPassesOwnChecks` | src/lib.rs:178-279 | A request built by this client is admitted if and only if the policy lets its token and capabilities in and the capability validator is absent or content; it is never refused for its node id or version |
| `Transport.NodeIdMatches` | src/mock.rs:90-106 | Over a crossed connection the node id a client announces is the one the hub has for it |
| `Transport.Connect` | src/mock.rs:83-111 | Each end sends into what the other receives from, on four different fresh channels, and the two ids are exchanged; the server's end is queued at its endpoint, and if that has gone there is no connection |
| `Transport.Channel.Receive` | src/mock.rs:23-31 | What is received is the first thing sent and not received yet; when there is none it waits, or reports the channel closed if the sender has gone |
| `Transport.Channel.Send` | src/mock.rs:33-47 | Taken exactly when the receiver is there and fewer than 16 are waiting; closed exactly when the receiver has gone |
| `Transport.MockConnection.Open` | src/mock.rs:33-47 | Queues the accepting side of a new pipe and returns the opening side, waits when the bound is reached, fails when the other end has gone |
| `Transport.MockConnection.Accept` | src/mock.rs:23-31 | Returns the oldest stream opened by the other end and not accepted yet; fails only when there is none and the other end has gone |
| `Transport.Drop` | src/mock.rs:8-16 | When one end goes, the other keeps what was opened to it before, finds the connection closed behind that, and can open nothing more |
| `Transport.AcceptAll` | src/lib.rs:393-402 | Once the other end has gone, the accept loop gets every stream that was opened and not accepted yet, in order, and then ends |
| `Transport.AcceptedInOpeningOrder` | src/mock.rs:83-106 | Over a crossed connection the streams either end accepts are a prefix of those of the same kind the other opened, at most 16 behind while it listens |
| `Identifiers.DecimalInjective` | src/lib.rs:28 | Decimal printing of counters is injective |
| `Identifiers.DecimalReads` | src/lib.rs:28 | A printed number is a text of decimal digits that reads back as the number, with no leading zero |
| `Identifiers.SplitUnique` | src/lib.rs:28 | Two strings joined at a separator that the first parts do not contain split back in one way only |
| `Identifiers.MsgIdInjective` | src/lib.rs:26-29 | Two message ids are equal exactly when clock reading and count are |
| `Identifiers.MsgIdReads` | src/lib.rs:28 | A message id has one underscore; before it stands the clock reading and behind it the count |
| `Identifiers.ConnectionIdInjective` | src/lib.rs:281 | Two connection ids are equal exactly when their counts are |
| `Identifiers.ConnectionIdReads` | src/lib.rs:281 | A connection id is conn_ and behind it a text that reads as the count |
| `Identifiers.IdsCoincide` | src/lib.rs:26-29 | In every interleaving of draws and prints, exactly when two ids coincide: same draw number modulo 2^64, and for message ids the same clock reading too |
| `Identifiers.IdsUniqueAndGapless` | src/lib.rs:16-29 | Up to 2^64 draws, in every interleaving and whatever the clock does, no id repeats and no number is skipped |
| `Identifiers.AssignedRopeIdAmbiguous` | src/lib.rs:282 | An assigned rope id reads as knot id, underscore, rope id; it also reads as another pair if and only if one of the two names contains an underscore |
| `Identifiers.AssignedRopeIdJoins` | src/lib.rs:282 | It is the only text that does: the knot id in front, then an underscore, then the rope id |
| `Identifiers.AtomicCounter.GenerateMsgId` | src/lib.rs:26-29 | The id is made of the clock reading and the counter before the call, and the counter has moved by one, wrapping at its word |
| `DataStream.DataPathIsExact` | src/lib.rs:446-481 | For any calls of write_frame, any configuration and any cut of the byte stream, so for whatever the sink has taken, the hub's events are a prefix of the frames that lie whole before the cut, with headers and payloads unchanged; all of them if the store commits |
| `DataStream.EventsAreFrames` | src/lib.rs:466-481 | For arbitrary incoming frames: the events, encoded again, are byte for byte the frames of at least 28 bytes up to the first with a wrong magic or a failed commit, and the reason given for stopping is that one |
| `DataStream.HandleEncoded` | src/lib.rs:466-481 | Frames encoded by this client are decoded to themselves; only a failing store stops them, and at that frame |
| `DataStream.Numbering` | src/lib.rs:733-750 | For up to 2^64 calls the sequence numbers in the byte stream strictly increase, and each is the frame's position plus the calls before it whose frames were kept out; the frame with number j carries the payload, frame type and elapsed time of call j, its exact payload length, no flags and stream number 1 |
| `DataStream.FramesAreCalls` | src/lib.rs:733-750 | However many calls: the frames in the byte stream are those of an increasing selection of the calls, each stamped with its call's elapsed time and not the caller's timestamp |
| `DataStream.SentOrKeptOut` | src/lib.rs:743-749 | Frames in the byte stream and calls whose frames were kept out of it together are the calls |
| `DataStream.AllSucceedAllSent` | src/lib.rs:748-749 | When every call succeeds no frame is kept out, so numbers are positions, and nothing is held back |
| `DataStream.FailedFrameArrives` | src/lib.rs:748 | A call can fail and its frame still go out, with its own number, ahead of the next one |
| `DataStream.KnotStream.WriteFrame` | src/lib.rs:733-750 | What is on the wire and what is held back are together the byte stream of the calls so far, whatever the sink took; nothing on the wire is taken back; a call succeeds exactly when its frame is within the limit, the sink takes and flushes all that is held back when that is too much to go on, and then takes and flushes the rest with the frame; then the whole stream is on the wire |
| `DataStream.KnotStream.Send` | src/lib.rs:748 | The framed writer: a frame enters unless it is too long or what is held back cannot be flushed first; what the sink does not take stays for the next call; a failing flush of the sink fails the send even when all bytes were taken |
| `DataStream.HandleFrames` | src/lib.rs:466-481 | The loop reports, and hands to the store in the same order, exactly the frames of the specification; nothing is reported that was not recorded |
| `DataStream.HandleStream` | src/lib.rs:446-484 | The whole task: what makes it fail and what it reports before that; nothing is recorded or reported unless the configuration was read and parsed and the store opened |
| `DataStream.RecordingPlaysTheStreamBack` | src/lib.rs:430-481 | From the client's calls through a cut byte stream to the file, whichever commits fail: the timeline in key order, looked up through FRAMES, is what arrived and was stored of the stream sent, the last of each run of equal timestamps |
| `DataStream.PlaybackFollowsTheClock` | src/lib.rs:430-481 | Against the client's clock: the keys of the recording are exactly the elapsed times of the calls whose frames arrived and were stored, and under each key lies the payload of the last of these calls at that time |
| `Framing.CutAnywhere` | docs/WIRE.md:9 | Cut at any byte, the reader gets exactly the whole frames before the cut, and sees a clean end exactly when the cut lies between frames or right behind a length, where the codec has nothing left over |
| `Framing.WholeWithinMeaning` | docs/WIRE.md:9 | The count of whole frames before a cut is the largest that fits |
| `Framing.UnpackAll` | src/lib.rs:452 | Every sequence of frames within the limit is read back as it was written |
| `Framing.UnpackInverse` | src/lib.rs:452 | Every byte stream that ends cleanly is the packing of the frames read from it, or that and the length of one more frame that never came |
| `Framing.PackedSays` | docs/WIRE.md:9 | A packed frame is four bytes, most significant first, that say its length, and then the frame |
| `Framing.OversizedEnds` | src/lib.rs:452 | A length over the limit ends the reading with an error |
| `FrameHeaders.Encode` | src/stream.rs:101-111 | The array filled in place is the layout: magic, id, number, time, type, flags, length, big-endian |
| `FrameHeaders.LayoutSlices` | src/stream.rs:101-111 | Where each field lies, whatever follows |
| `FrameHeaders.DecodeEncode` | src/stream.rs:113-138 | Decoding an encoded header, with any payload behind it, gives the header back exactly when its magic is right |
| `FrameHeaders.EncodeDecode` | src/stream.rs:113-138 | Decoding succeeds exactly on 28 or more bytes with the magic in front, and calls exactly shorter input too short; encoding what was decoded gives back the first 28 bytes, and the rest did not matter |
| `FrameHeaders.SequenceOrder` | src/stream.rs:105 | Lexicographic order of the encoded sequence field is numeric order |
| `BigEndian.FromTo` | src/stream.rs:104-109 | Reading back a big-endian word gives the number, for every number of that width |
| `BigEndian.ToFrom` | src/stream.rs:122-127 | Every byte string is the big-endian word of the number it is read as |
| `Recording.RecordingWriter.WriteFrame` | src/lib.rs:430-443 | One transaction appends one entry to the log the two tables stand for, or changes nothing when it does not commit |
| `Recording.TablesMeanTheLog` | src/lib.rs:411-443 | For every hash function and log: FRAMES holds under a hash the first payload written with it, TIMELINE under a timestamp the hash of the last payload written there, and neither anything else |
| `Recording.LookupIsLastWrite` | src/lib.rs:434-439 | Going through both tables never dangles, and gives the last payload at a timestamp if and only if no earlier payload took its hash |
| `Recording.TablesByPosition` | src/lib.rs:434-439 | Position by position: the last write at a timestamp is the one found there, and the first write with a hash the one kept |
| `Recording.FramesHoldThePayloads` | src/lib.rs:434-437 | FRAMES holds only payloads that were written, overwritten timestamps included, and all of them if and only if no two collide |
| `Recording.TableSizes` | src/lib.rs:434-439 | TIMELINE has as many rows as distinct timestamps; FRAMES at most as many as distinct payloads, and as many if and only if no two collide |
| `Recording.PlaybackIsTheStream` | src/lib.rs:430-443 | For a stream whose timestamps do not go back, in an empty store: ascending keys through both tables are the stream, the last of each run of equal timestamps |
| `Recording.RunEnds` | src/lib.rs:439 | What is kept of runs of equal timestamps are exactly the entries behind which another timestamp, or nothing, follows, in order |
| `Recording.AscendingUnique` | src/lib.rs:412 | There is only one ascending listing of a key set, so "in key order" is well defined |
| `SanitizedName.SanitizedName` | src/stream.rs:14-24 | The loop ends, after exactly ceil(log2 L) rounds for longest separator run L, with the alphanumeric words of the topic, lowercased and joined by single underscores |
| `SanitizedName.ReplaceHalves` | src/stream.rs:21 | One left-to-right replacement turns the longest run n into ceil(n/2) |
| `SanitizedName.ReplaceKeepsWords` | src/stream.rs:21 | and keeps the words between the runs |
| `SanitizedName.DoubleMeansRun` | src/stream.rs:20 | The loop's guard holds exactly while some run has length two or more |
| `SanitizedName.LongestRunIs` | src/stream.rs:20-22 | The longest run is one: there is a run of that length, and no longer one |
| `SanitizedName.CeilLog2Meaning` | src/stream.rs:20-22 | The round count is the rounded-up binary logarithm: the least e with n <= 2^e |
| `SanitizedName.TrimJoins` | src/stream.rs:23 | Without doubled underscores, trimming leaves exactly the words joined by single ones |
| `SanitizedName.MappedWords` | src/stream.rs:15-18 | The words of the mapped topic are the maximal alphanumeric runs of the topic, ASCII-lowercased |
| `SanitizedName.MappedLetterForLetter` | src/stream.rs:17 | The mapping, letter for letter: A to Z lowered, other alphanumeric characters kept, all the rest underscores |
| `SanitizedName.SplitJoin` | src/stream.rs:14-24 | Splitting a name at its underscores gives back its words |
| `SanitizedName.NamesAreTheCleanTopics` | src/stream.rs:14-24 | Every name has no doubled, leading or trailing underscore and no other separator, and a topic is its own name if and only if it is of that form |
| `SanitizedName.NameIsIdempotent` | src/stream.rs:14-24 | Sanitizing a name changes nothing |
| `SanitizedName.SameNameSameWords` | src/lib.rs:462 | Two topics share a recording file name if and only if their lowercased words are equal |

## Left out

- Reconnection grace, takeover, `DuplicateRopeId`, heartbeats, command authorization and interactive approval: described in docs/STATE.md, docs/SECURITY.md and docs/CAPS.md, with no code behind them in src.
- The byte layouts of bincode and serde_json: control frames are decoded values or malformed, and the configuration parser is a parameter of `HandleStream`; the default stream id "1" for a configuration without one (src/lib.rs:461) never arises from this client, which always names its stream.
- redb, BLAKE3, the filesystem and tokio: a transaction is an atomic update that may not commit, the hash an arbitrary function with freedom from collisions as a stated condition, and scheduling any interleaving.
- SanitizedName.SanitizedName: the Unicode tables behind `is_alphanumeric` are a predicate of which only ASCII letters, ASCII digits and the underscore are fixed; `Replace` and `Trim` are the library calls written out.
- DataStream.KnotStream.WriteFrame: how many bytes the sink takes and whether its own flush succeeds are inputs, and the backpressure boundary of the framed writer a parameter.
- DataStream.Numbering: up to 2^64 calls on one stream; after that the counter wraps here, where a debug build of the original stops.
- Recording.RecordingWriter.WriteFrame: opening an existing file again is the same object; that a file can be open once only is redb's rule, taken over in `Session.Configured`, and files shared between connections of one knot are not modelled.
- The transition system is on values, one step per atomic action, since it is about concurrency; the same steps over fields in place are in `Tasks`, `Recording`, `DataStream` and `Admission`. The two writer tasks are only the forwarding steps.
- Tasks.HubReader.Run: takes its whole inbound stream with the other tasks standing still; the same claims under every interleaving are in `SessionReading`.
- Tasks.KnotClient.ReadLoop: likewise.
- Transport.Channel.Send: a channel has one sender; a clone of a connection counts as the same sender.
- One connection per transition system; ids across connections are in `Identifiers`, and the control sender inside `RopeConnected` is the hub queue of that connection.
- Real time: clock readings are arbitrary inputs, and only the playback theorem asks that elapsed time does not go back.
- Iroh connections, tickets, getters, `Capability` constructors, debug output and the examples.
