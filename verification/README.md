# strobengine, modelled and proved in Dafny

strobengine is a load generator: a supervisor grows and shrinks a set of worker tasks, each
worker drives one protocol session after another iteration, and an aggregator turns what they
report into a summary. This project models the parts of it that carry real obligations and
proves them for every input, every run or every interleaving.

`dafny verify dfyconfig.toml` checks all of it.

## What is modelled

- **STOMP codec** (`StompCodec`, `StompStream`, `StompRoundTrip`, `StompSend`, `StompDecoder`,
  `StompReading`, `StompReplay`). `StompCodec` is the reference: what the serializer writes and what
  one call of the decoder owes its caller. `StompDecoder` is the code: a growing buffer, a cursor, loops and
  machine-sized arithmetic, as a class and methods proved against the reference. The main results
  are chunk invariance, the round trip with its exact condition, and the one family of inputs on
  which code and reference part ways.
- **STOMP session** (`StompSession`, `StompModel`, `StompTrace`, `StompSessionLaws`, `StompRuns`,
  `StompLife`, `StompTimes`, `StompWire`, `StompWitness`). The class behind a worker, proved equal method by
  method to functions on values, and the laws of those functions over every run. The network is a
  script with one entry for each await that completes; a script that runs out is an iteration dropped
  at that await, so whatever holds of every script holds at every await. The session keeps a record of
  every await with its outcome and of every frame taken off the wire. The record is what the laws
  speak of: it holds exactly the awaits of the scripts, and the frames in it are those of the octets
  received.
- **Supervisor and ramp** (`Supervisor`, `LoadProfile`). The loop that keeps two vectors aligned
  while it scales, the arithmetic that tells it where to go, and that it goes there.
- **Workers, counters and channel** (`Workers`, `WorkersLaws`). A state machine whose steps are the
  single atomic operations of the tasks, over every interleaving.
- **Seeds** (`Seed`). SplitMix64 mixing on 64-bit words, with explicit inverses.
- **Distributed worker** (`WorkerControl`, `WorkerControlLaws`). The run slot, the command loop, the
  heartbeat, the orchestrators and the teardown of a session, as interleaved steps.
- **Telemetry** (`Telemetry`) and **aggregation** (`Metrics`, `Aggregate`, `Aggregator`,
  `AggregateReport`, `Timeline`). The accumulators as classes and loops, each proved against a closed
  form over the metrics received, and what the report depends on.
- **gRPC** (`GrpcSend`, `GrpcCall`) and **SSE** (`Sse`, `SseEvents`, `SseRoundTrip`).
- **GraphQL-WS session** (`GraphqlWs`, `GraphqlWsModel`, `GraphqlWsLaws`, `GraphqlWsWitness`), in the
  same form as the STOMP session.

`Incremental` is the theory of incremental parsing that STOMP and SSE both instantiate. `Folds`
says when a fold does not depend on order. `Bytes`, `Text` and `Wrappers` hold octets, the text
handling the codec needs (UTF-8 validity, Unicode trimming, decimal numbers) and option types;
`Awaiting` says how an await can end.

Imperative code is modelled imperatively: the decoder, the sessions, the supervisor, the collector
and the accumulators are classes whose methods are proved against functions of the inputs or the
old state. Shared-memory concurrency becomes a state machine over atomic steps.

## Where code and expectation differ

- A STOMP `content-length` close to 2^64 makes `cursor + len` wrap. The decoder then answers with an
  error, or slices out of order, where it should ask for more input, and the answer depends on how
  the stream was cut. `PullAgrees` gives the exact condition for one call, `RunsAgreeExactly` for a
  whole run of pushes and polls, `TameHeadIsTight` for one head at any position; `ChunkingMatters`
  has two different answers to the same octets.
- The branch of `next_frame` for an empty command line cannot be reached; `ReadCommand` proves it dead.
- A STOMP consumer whose messages are acknowledged by the client can be dropped between seeing a
  message and reporting it. The next delivery then carries an interval although none was reported
  before: `DeliveryLostInAck`. `FirstMessageExactly` is the rule with that case in it.
- An iteration dropped while it writes leaves part of a STOMP frame on a connection that the session
  goes on using: `WritesAfterACut`. `WritesFollowWholeFrames` says exactly when that has happened.
- A corrupted-payload iteration of a GraphQL-WS session takes the next data message of the live
  subscription for the answer to its malformed frame, and does not time it. The time to first message
  reported later is then that of a later message: `FirstMessageSwallowed`. `FirstMessageExactly` has
  the rule with that case in it, and `RightlyExactly` says that this fault is the only cause.
- A START that is rejected has already spawned its orchestrator. Until a session is torn down at most
  one run executes exactly when a STOP comes between any two STARTs: `OneRunExactly`.
- While a session is torn down its command loop still accepts STARTs. With the teardown included, at
  most one run executes exactly when there is at most one START: `OneRunInAll`. The same condition
  decides whether two acknowledged runs can execute at once: `AcknowledgedTogetherExactly`.
- A gRPC length prefix is cut to 32 bits: `LengthReadBackExactly`.
- `cwnd_bytes_current` and `pool_size` are last-observed values. `OrderFreeExactly` says when the
  protocol sections do not depend on the order of the metrics, and `LastOneShows` that they do
  otherwise. The timeline depends on arrival times by design.
- The guard against empty timeline samples is always passed: a sample is emitted right after a metric
  was recorded. `MaybeEmit` proves it.

## Model

| member | source | states |
|---|---|---|
| `StompStream.StompChunkInvariance` | src/protocols/stomp_codec.rs:204-306 | for every cutting of a byte stream into pushes and every interleaving with polls: the frames handed out are a prefix of those of the whole stream, after an error they and the error are the same, otherwise draining what is pending completes them exactly |
| `StompStream.AnswerStable` | src/protocols/stomp_codec.rs:214-290 | an answer other than "need more" is not changed by octets that arrive later |
| `StompStream.SkippingIsFree` | src/protocols/stomp_codec.rs:293-298 | dropping the heartbeats in front of an incomplete frame changes nothing that will be decoded later |
| `StompStream.DecoderIsResumable` | src/protocols/stomp_codec.rs:214-306 | the decoder meets the four conditions of the general theory of incremental parsing |
| `StompStream.HeadStable` | src/protocols/stomp_codec.rs:218-250 | a complete or malformed head stays what it is when more octets arrive |
| `Incremental.ChunkInvariance` | src/protocols/stomp_codec.rs:186-191 | for any parser with stable answers, what a reader delivers does not depend on how its input was cut or when it was polled |
| `StompRoundTrip.FrameRoundTrip` | src/protocols/stomp_codec.rs:121-135 | decoding an encoded frame followed by any octets gives the frame back and consumes exactly its octets, for arbitrary headers |
| `StompRoundTrip.RoundTripExactly` | src/protocols/stomp_codec.rs:214-290 | the round trip holds if and only if the command is non-empty, trimmed and free of LF and the body is announced with its true length or, unannounced, has no NUL and does not end in LF |
| `StompRoundTrip.StreamRoundTrip` | src/protocols/stomp_codec.rs:293-298 | any list of such frames with any heartbeats between and after them decodes to that list and leaves nothing |
| `StompRoundTrip.HeaderTextRoundTrip` | src/protocols/stomp_codec.rs:139-171 | unescaping undoes escaping for every header text, and escaped text is UTF-8 without LF, CR or colon |
| `StompRoundTrip.HeadersRoundTrip` | src/protocols/stomp_codec.rs:233-250 | encoded headers parse back to the same list, order and duplicates included |
| `StompRoundTrip.BodyRoundTrip` | src/protocols/stomp_codec.rs:258-281 | a body that fits its announcement is cut out whole |
| `StompSend.SetThenLookup` | src/protocols/stomp_codec.rs:92-112 | after setting a header, looking up that name in any case gives the new value and every other name what it gave before |
| `StompSend.SetKeepsDistinct` | src/protocols/stomp_codec.rs:92-104 | setting a header keeps names distinct up to ASCII case |
| `StompSend.SendLength` | src/protocols/stomp.rs:387-406 | whatever headers are configured, in any spelling, the content-length on a SEND is the length of its body |
| `StompSend.SendReceipt` | src/protocols/stomp.rs:397-404 | a SEND that asks for a receipt carries exactly the id it will wait for |
| `StompSend.SendRoundTrip` | src/protocols/stomp.rs:387-406 | every SEND the producer builds, for any binary payload and any configured headers, decodes to itself and has distinct header names |
| `StompSend.ReceiptIdInjective` | src/protocols/stomp.rs:397-404 | two receipt ids are equal only if their numbers are |
| `StompDecoder.PullAgrees` | src/protocols/stomp_codec.rs:214-290 | one call of the code gives the reference answer if and only if the announced end of the body fits a `usize`, and then leaves exactly the reference's pending octets |
| `StompDecoder.CompactKeeps` | src/protocols/stomp_codec.rs:301-306 | compaction never changes the pending octets and keeps fewer than 4096 consumed ones |
| `StompDecoder.SkipKeeps` | src/protocols/stomp_codec.rs:293-298 | skipping heartbeats drops exactly the leading line endings |
| `StompDecoder.PullShrinks` | src/protocols/stomp_codec.rs:214-290 | a call never grows what is pending, and a frame always takes something off it |
| `StompDecoder.Decoder.Push` | src/protocols/stomp_codec.rs:204-206 | appends to the pending octets and nothing else |
| `StompDecoder.Decoder.PendingCount` | src/protocols/stomp_codec.rs:209-211 | the number of octets not yet consumed |
| `StompDecoder.Decoder.Compacted` | src/protocols/stomp_codec.rs:301-306 | reclaims in place what the value model reclaims and re-establishes the bound on kept octets |
| `StompDecoder.Decoder.SkipHeartbeats` | src/protocols/stomp_codec.rs:293-298 | the loop and the compaction come to the value model's skip |
| `StompDecoder.Decoder.NextFrame` | src/protocols/stomp_codec.rs:214-290 | answer and buffer afterwards are those of the value model, for every buffer |
| `StompDecoder.AfterEols` | src/protocols/stomp_codec.rs:293-298 | the loop stops right after the leading line endings |
| `StompDecoder.ReadCommand` | src/protocols/stomp_codec.rs:217-231 | reads the command the reference reads; the branch for an empty command line is dead |
| `StompDecoder.CommandLineNotEmpty` | src/protocols/stomp_codec.rs:222-226 | after heartbeats are skipped a command line is never empty, so the recursion cannot happen |
| `StompDecoder.ReadHeaders` | src/protocols/stomp_codec.rs:233-250 | the header loop gives the reference's headers, cursor or error |
| `StompDecoder.ReadLine` | src/protocols/stomp_codec.rs:236-249 | one turn of that loop classifies the line as the reference does |
| `StompDecoder.ReadField` | src/protocols/stomp_codec.rs:244-249 | splits at the first colon and reports the fault the reference reports |
| `StompDecoder.ReadHead` | src/protocols/stomp_codec.rs:217-250 | command and headers together |
| `StompDecoder.ReadSized` | src/protocols/stomp_codec.rs:258-266 | an announced body, with the index arithmetic of the machine |
| `StompDecoder.ReadToNul` | src/protocols/stomp_codec.rs:267-281 | an unannounced body up to the first NUL, less one line ending |
| `StompDecoder.TrimmedEnd` | src/protocols/stomp_codec.rs:271-280 | removes one LF or CR LF and no more |
| `StompDecoder.DecodeHeader` | src/protocols/stomp_codec.rs:152-171 | the character loop unescapes or reports the leftmost fault |
| `StompDecoder.EncodeHeader` | src/protocols/stomp_codec.rs:139-149 | the loop appends the escaped text to what was there |
| `StompDecoder.EncodeHeaders` | src/protocols/stomp_codec.rs:125-130 | the loop appends every header line in order |
| `StompDecoder.Encode` | src/protocols/stomp_codec.rs:121-135 | writes the octets the round-trip results are about |
| `StompReplay.Replay` | src/protocols/stomp_codec.rs:192-306 | a decoder object driven through any interleaving of pushes and polls, wrapping ones included, delivers the frames, the error or panic, and the pending octets of the run of the value model |
| `StompReplay.RunsAgreeExactly` | src/protocols/stomp_codec.rs:192-306 | the run of the code has the frames, error and pending octets of the reference run if and only if no poll before the first error has a body end that does not fit a `usize` |
| `StompReplay.CodeChunkInvariance` | src/protocols/stomp_codec.rs:186-306 | while no such poll occurs, what the code delivers is what the whole stream delivers, however it was cut and polled |
| `StompReplay.TameRuns` | src/protocols/stomp_codec.rs:192-306 | a bound on the lengths announced in the stream, which can be checked beforehand, is enough |
| `StompReplay.StuckForever` | src/protocols/stomp_codec.rs:192-306 | where the code has stopped on such a poll the reference waits for the announced octets and never reports an error, whatever else arrives |
| `StompReplay.TameHeadIsTight` | src/protocols/stomp_codec.rs:258-262 | the bound on announced lengths used for streams holds of a head exactly when it wraps at no position the decoder can keep it at |
| `StompReplay.TameNeverWraps` | src/protocols/stomp_codec.rs:258-262 | on a stream within that bound no call wraps |
| `StompReplay.AnswerDependsOnPosition` | src/protocols/stomp_codec.rs:258-262 | for a head announcing `n` octets the decoder asks for more if and only if kept octets, head and `n` together stay below 2^64 |
| `StompReplay.ChunkingMatters` | src/protocols/stomp_codec.rs:258-265 | concrete octets that get two different answers when received in one read or in two |
| `StompLife.SuccessIsAnswered` | src/protocols/stomp.rs:379-436 | over every run: an iteration that asks for a receipt reports success only after its SEND was written to the end and a RECEIPT with its id was then the last frame taken off the wire, and no other SEND of the session, earlier or later, ever asked for that id; the octets reported are those of that SEND |
| `StompLife.ReceiptsNeverReused` | src/protocols/stomp.rs:397-404 | no two SENDs in the record of a session ask for the same receipt, across resets, reconnects and drops |
| `StompLife.FirstMessageExactly` | src/protocols/stomp.rs:452-484 | over every run: a delivery carries the time to first message if and only if no earlier iteration of its subscription delivered a message or was dropped with one in hand, and the interval if and only if one was |
| `StompLife.FirstDeliveryIsTimed` | src/protocols/stomp.rs:452-484 | with automatic acknowledgement, or nothing dropped before it, a delivery carries the time to first message if and only if it is the first one reported of its subscription |
| `StompTimes.TimesAddUp` | src/protocols/stomp.rs:461-472 | over every run in which no delivery is lost: the times reported for a subscription add up to the time from subscribing to its last message |
| `StompTimes.IntervalIsGap` | src/protocols/stomp.rs:461-472 | over every run: the interval of a delivery is the time since the message of its subscription taken before it, whether that was delivered or lost |
| `StompTimes.FirstIsGap` | src/protocols/stomp.rs:461-472 | over every run: the time to first message is the time since its subscription was made, whichever iteration made it |
| `StompTimes.DeliveryIsHanded` | src/protocols/stomp.rs:452-499 | over every run: a delivery reported is of a MESSAGE with that many octets, taken in that iteration and then acknowledged with its own id where that is asked for |
| `StompWire.WritesFollowWholeFrames` | src/protocols/stomp.rs:290-299 | over every run: when a frame is written, what was written before on its connection is whole frames, however far incomplete writes got, if and only if no write on it was dropped; a write that failed is never followed by another |
| `StompWire.WholeExactly` | src/protocols/stomp.rs:290-299 | a connection carries whole frames if and only if every write on it completed |
| `StompWire.PeerReads` | src/protocols/stomp.rs:290-299 | then a peer that decodes what it carries reads the frames written, in order, with nothing left over, where these decode to themselves |
| `StompWire.IterationKept` | src/protocols/stomp.rs:133-152 | no iteration writes on a connection on which a write has failed |
| `StompWitness.WritesAfterACut` | src/protocols/stomp.rs:290-299 | for every configuration: a run that writes a frame where the connection need not carry whole frames |
| `StompWitness.DeliveryLostInAck` | src/protocols/stomp.rs:474-484 | for every such configuration and every small greeting and message: a run of two iterations whose only reported delivery carries an interval and no time to first message |
| `StompWitness.SmallFrames` | src/protocols/stomp.rs:452-484 | such a greeting and such a message exist |
| `StompWitness.FirstsTimedExactly` | src/protocols/stomp.rs:452-484 | for every configuration of a consumer: in every run the first delivery reported of a subscription carries the time to first message and no other does, if and only if messages are not acknowledged by the client |
| `StompLife.ReconnectsReported` | src/protocols/stomp.rs:227-265 | reported reconnects plus those of dropped iterations are the connections greeted with CONNECTED less one; with none dropped the reports alone are |
| `StompLife.AlwaysGood` | src/protocols/stomp.rs:133-188 | between any two iterations of any run the session is in order |
| `StompLife.MessagesTaken` | src/protocols/stomp.rs:274-288 | a live subscription has messages to its name if and only if some iteration took one off it |
| `StompLife.TakenMeans` | src/protocols/stomp.rs:439-484 | a message taken off a live subscription was delivered, or lost by a drop, and the latter only where the client acknowledges |
| `StompRuns.IterationKeeps` | src/protocols/stomp.rs:133-152 | every iteration, with every fault and every network, reported or dropped at any await, leaves the session in order; reports are of what the record shows: its reconnects, its RECEIPT, its MESSAGE |
| `StompRuns.TryProduceSound` | src/protocols/stomp.rs:379-424 | a producer connects at most once, and success means the SEND was written and answered |
| `StompRuns.TryConsumeSound` | src/protocols/stomp.rs:439-484 | a consumer connects and subscribes at most once each; a delivery is of a MESSAGE just taken and carries exactly one of the two times |
| `StompSessionLaws.ReadFrameTuned` | src/protocols/stomp.rs:301-322 | the frame returned is the next frame of the octets received on this connection; pending octets stay within the frame bound plus one read |
| `StompSessionLaws.ReadUntilTuned` | src/protocols/stomp.rs:325-367 | frames are passed over in the order of the stream until the first that is wanted or an ERROR, and none that was passed over would have ended the wait |
| `StompSessionLaws.AwaitConnectedSound` | src/protocols/stomp.rs:240-264 | the session is connected if and only if CONNECTED came before any ERROR on this connection |
| `StompSessionLaws.ConnectSound` | src/protocols/stomp.rs:227-265 | after success the connection was greeted; after failure or a drop nothing is claimed that the record does not show |
| `StompSessionLaws.EnsureConnectedSound` | src/protocols/stomp.rs:267-272 | does nothing at all when connected, and is greeted once otherwise |
| `StompSessionLaws.EnsureSubscribedSound` | src/protocols/stomp.rs:274-288 | a SUBSCRIBE is written if and only if there is no live subscription, and starts a count of messages at none |
| `StompSessionLaws.SendSound` | src/protocols/stomp.rs:387-424 | the receipt number goes up by one whatever happens, and success means the SEND with that number was written and answered |
| `StompSessionLaws.AcknowledgeSound` | src/protocols/stomp.rs:474-484 | an acknowledgement changes nothing the session knows, and can only stop one that is asked for |
| `StompSessionLaws.DeliverSound` | src/protocols/stomp.rs:452-484 | a delivery is of a MESSAGE taken off the wire, timed against the subscription if it is the first since the SUBSCRIBE and against the message before it otherwise |
| `StompSessionLaws.ResetGood` | src/protocols/stomp.rs:217-225 | after a reset the session is in order again, whatever failed |
| `StompSessionLaws.PullSane` | src/protocols/stomp_codec.rs:214-306 | a poll keeps the bounds on consumed and pending octets |
| `StompReading.PullConsumes` | src/protocols/stomp_codec.rs:214-290 | a poll answers for the whole stream received so far: the frame it hands out is the stream's next frame and what stays pending is what follows it |
| `StompReading.ConsumedFrame` | src/protocols/stomp_codec.rs:186-191 | frame after frame, what was read and what is pending make up the stream, whatever arrives next |
| `StompReading.ConsumedPrefix` | src/protocols/stomp_codec.rs:186-191 | the frames read are what the stream starts with |
| `StompSession.StompSession.Reset` | src/protocols/stomp.rs:217-225 | drops the connection, the subscription and the timing, keeps the receipt number and whether it was ever connected |
| `StompSession.StompSession.WriteFrame` | src/protocols/stomp.rs:290-299 | awaits the write of the octets of a frame, and records the frame and the outcome |
| `StompSession.StompSession.Poll` | src/protocols/stomp.rs:301-305 | the decoder object answers as the value model does and keeps its bounds |
| `StompSession.StompSession.ReadFrame` | src/protocols/stomp.rs:301-322 | the loop is the model's read, and pending octets stay bounded at every await |
| `StompSession.StompSession.AwaitConnected` | src/protocols/stomp.rs:240-264 | the loop is the model's wait for the greeting |
| `StompSession.StompSession.Connect` | src/protocols/stomp.rs:227-265 | dial, CONNECT and greeting, as in the model |
| `StompSession.StompSession.EnsureConnected` | src/protocols/stomp.rs:267-272 | connects only when not connected |
| `StompSession.StompSession.EnsureSubscribed` | src/protocols/stomp.rs:274-288 | subscribes only when not subscribed, and a new subscription forgets the timing of the old |
| `StompSession.StompSession.AwaitReceipt` | src/protocols/stomp.rs:325-341 | reads up to the RECEIPT with the id asked for, or an ERROR |
| `StompSession.StompSession.AwaitMessage` | src/protocols/stomp.rs:345-367 | reads up to a MESSAGE, or an ERROR, and gives its length and its ack header or else its message id |
| `StompSession.StompSession.Send` | src/protocols/stomp.rs:387-424 | numbers, builds, writes and awaits the SEND as the model does |
| `StompSession.StompSession.ProduceOnce` | src/protocols/stomp.rs:379-436 | the report and the session afterwards are the model's |
| `StompSession.StompSession.Acknowledge` | src/protocols/stomp.rs:474-484 | acknowledges where that is asked for and the message has an id |
| `StompSession.StompSession.Deliver` | src/protocols/stomp.rs:452-484 | takes, times and acknowledges a message in the model's order |
| `StompSession.StompSession.ConsumeOnce` | src/protocols/stomp.rs:439-499 | the report and the session afterwards are the model's; a failure resets |
| `StompSession.StompSession.RunIteration` | src/protocols/stomp.rs:133-152 | an iteration, faults included, is the model's |
| `StompSession.RunWorker` | src/protocols/stomp.rs:133-188 | any number of iterations, each possibly dropped, is a run of the model, so that everything said of runs is said of the class |
| `LoadProfile.TargetBounded` | src/config.rs:1158-1217 | at every time the target lies between the smaller and the larger endpoint of the profile |
| `LoadProfile.RampMonotone` | src/config.rs:1162-1178 | a ramp moves monotonically toward its target, up or down |
| `LoadProfile.RampTracksLine` | src/config.rs:1162-1178 | a ramp starts at its start, reaches its target at the end of the ramp, and is always within one half of the exact line |
| `Supervisor.Supervisor.SpawnOne` | src/lib.rs:369-386 | a new task gets a token and a handle at the same index and is counted |
| `Supervisor.Supervisor.ReapOne` | src/lib.rs:388-396 | the token cancelled is the one of the handle set aside, the youngest |
| `Supervisor.Supervisor.JoinReaped` | src/lib.rs:398-403 | every handle set aside is awaited once, in order |
| `Supervisor.Supervisor.Grow` | src/lib.rs:369-386 | the loop adds the newcomers the target asks for, in order, and none otherwise |
| `Supervisor.Supervisor.Shrink` | src/lib.rs:388-403 | the loop cancels down to the target, youngest first, and awaits in that order |
| `Supervisor.Supervisor.Scale` | src/lib.rs:367-403 | one turn of the loop leaves exactly the pool scaled to the target: newcomers on top of the stack, or the youngest cancelled and awaited first |
| `Supervisor.Supervisor.CancelAll` | src/lib.rs:410-412 | every remaining token is cancelled |
| `Supervisor.Supervisor.Teardown` | src/lib.rs:409-417 | every remaining handle is cancelled first and awaited once |
| `Supervisor.Supervisor.Run` | src/lib.rs:354-418 | for every profile and every sequence of wake-ups: every wake-up before the first that stops is acted on and the pool after each is the one the profile asks for; at the end each task ever spawned was cancelled and awaited exactly once, the spawned are as many as the profile climbs, and tasks not yet awaited never exceeded the highest demand seen |
| `Supervisor.PoolFollowsProfile` | src/lib.rs:362-407 | after each wake-up acted on as many tasks run as the profile asks for, spawned tasks are the sum of its climbs, and the peak is its highest demand, within the upper bound |
| `Supervisor.StackKept` | src/lib.rs:369-396 | the oldest `k` tasks are the same tasks for as long as the profile asks for at least `k` |
| `Supervisor.IdsOnce` | src/lib.rs:354-418 | the multiset of tasks spawned holds each exactly once |
| `Workers.StepBalanced` | src/lib.rs:138-216 | every atomic step keeps the counters equal to what workers in flight and metrics sent account for |
| `Workers.StepShaped` | src/lib.rs:138-216 | every step keeps the channel within its capacity, each worker's cut-offs at one, and the receiver open while any worker lives |
| `Workers.RunKeeps` | src/lib.rs:138-216 | so does every run |
| `Workers.DropGuardMoves` | src/lib.rs:138-145 | a guard is only dropped while the active count is positive |
| `WorkersLaws.AlwaysInOrder` | src/lib.rs:138-216 | in every reachable state errors <= latency count <= completed <= total, the active count is the number of live workers, its decrement never underflows, and no send is ever refused |
| `WorkersLaws.EndOfRun` | src/lib.rs:426-451 | when the aggregator has returned: nobody is active; metrics received = completed = sum of the status codes reported; bytes and errors agree with the report; total minus completed is exactly what cancellation cut off, at most one iteration a worker |
| `WorkersLaws.TotalsAreFinal` | src/lib.rs:435-436 | the totals read before the aggregator is awaited do not change any more |
| `WorkersLaws.NeverStuck` | src/lib.rs:160-216 | until the aggregator returns some task can always move |
| `WorkersLaws.CancelledRunsEnd` | src/lib.rs:176-216 | once every task is cancelled, no run of the tasks is longer than a bound computed from the state |
| `WorkersLaws.CancelledWorkerEnds` | src/lib.rs:398-403 | one cancelled worker, whatever all others do: it takes at most 13 more steps of its own, and until it is done it can take one unless the channel is full |
| `Seed.StepsInvertible` | src/strobengine/rng.py:26-30 | each xorshift and each multiplication by an odd constant has the given inverse on 64-bit words |
| `Seed.MixBijective` | src/strobengine/rng.py:26-30 | the mixing function and its inverse undo each other on every word |
| `Seed.IterationBijective` | src/strobengine/rng.py:43-54 | with test seed and user fixed, the seed determines the iteration, and every seed occurs |
| `Seed.VuBijective` | src/strobengine/rng.py:43-54 | likewise for the virtual user |
| `Seed.TestSeedBijective` | src/strobengine/rng.py:43-54 | likewise for the test seed |
| `Seed.SeedsDistinct` | src/strobengine/rng.py:43-54 | no two iterations of a user and no two users at one iteration share a seed |
| `WorkerControl.StepSound` | src/distributed/worker.rs:366-470 | every step of a live session keeps the log of acknowledged runs in step with the slot and the command loop |
| `WorkerControlLaws.AcknowledgedRunsAreSeparated` | src/distributed/worker.rs:105-132 | between two acknowledged STARTs of a live session a STOP took the first run, then cancelled it, then joined it after it had ended, whatever ABORTs, heartbeats and completions intervene |
| `WorkerControlLaws.AtMostOneAcknowledgedRun` | src/distributed/worker.rs:443-470 | of two acknowledged runs of a live session the earlier has ended |
| `WorkerControlLaws.OneRunExactly` | src/distributed/worker.rs:451-467 | before the teardown of a session begins: at most one run, acknowledged or not, executes under every interleaving if and only if the master sends a STOP between any two STARTs |
| `WorkerControlLaws.OneRunInAll` | src/distributed/worker.rs:257-259 | with the teardown included: at most one run executes under every interleaving if and only if the master sends at most one START |
| `WorkerControlLaws.AcknowledgedTogetherExactly` | src/distributed/worker.rs:257-259 | with the teardown included: two acknowledged runs never execute at once under any interleaving if and only if the master sends at most one START |
| `WorkerControlLaws.RunAlone` | src/distributed/worker.rs:366-470 | with such a command sequence the only run not ended is the one in the slot or in the hands of the command loop |
| `WorkerControlLaws.Drive` | src/distributed/worker.rs:382-433 | a schedule that carries out any such sequence with the slot's run still executing |
| `WorkerControlLaws.RejectedRunsAreNeverCancelled` | src/distributed/worker.rs:451-467 | no STOP, ABORT, heartbeat or teardown ever reaches the run of a rejected START |
| `WorkerControlLaws.TeardownLetsRunsOverlap` | src/distributed/worker.rs:257-259 | for every command sequence with two STARTs: a schedule in which two acknowledged runs execute at once |
| `WorkerControlLaws.LifecycleIsLegal` | src/distributed/state.rs:41-61 | the advertised state only alternates between ready and running, so no transition is ever refused |
| `Telemetry.WindowedCollector.Record` | src/distributed/telemetry.rs:128-141 | the open window holds one more metric: counts, bytes, histogram and error classes |
| `Telemetry.WindowedCollector.TakeBatch` | src/distributed/telemetry.rs:146-190 | nothing for an empty window; otherwise a batch reporting exactly the window, the next number, and an empty window |
| `Telemetry.HistogramBuckets` | src/metrics/summary.rs:157-201 | entry `i` counts the recorded values that fall into bucket `i` |
| `Telemetry.VectorsMerge` | src/metrics/summary.rs:190-201 | the buckets of a merged histogram are the element-wise sums |
| `Telemetry.VectorTotal` | src/metrics/summary.rs:157-187 | every recorded value is in exactly one bucket |
| `Telemetry.Collect` | src/distributed/telemetry.rs:128-190 | for any interleaving the batches are numbered 0, 1, 2, ... over non-empty windows which, with the open window, are exactly the metrics recorded |
| `Telemetry.BatchesConserve` | src/distributed/telemetry.rs:146-190 | totals, successes, failures, bytes and buckets of the batches add up to those of the windows closed |
| `Telemetry.NothingLost` | src/distributed/telemetry.rs:128-190 | batches plus open window account for every metric recorded, once |
| `Telemetry.BatchBalanced` | src/distributed/telemetry.rs:43-71 | success + failure = total = sum of buckets, and error counts sum to the failures |
| `Aggregator.Accumulators.RecordCommon` | src/metrics/aggregate.rs:77-107 | the common section stays the closed form of the metrics received |
| `Aggregator.Accumulators.RecordTimings` | src/metrics/aggregate.rs:78-86 | the three histograms hold the latencies, end-to-end and connection times present |
| `Aggregator.Accumulators.RecordChaos` | src/metrics/aggregate.rs:87-93 | faults are counted in total and by name |
| `Aggregator.Accumulators.RecordSockets` | src/metrics/aggregate.rs:96-104 | sockets created and reused, DNS times |
| `Aggregator.Accumulators.RecordResponse` | src/metrics/aggregate.rs:105-106 | status codes and bytes |
| `Aggregator.Accumulators.RecordQuic` | src/metrics/aggregate.rs:118-132 | sums over the significant samples |
| `Aggregator.Accumulators.RecordSse` | src/metrics/aggregate.rs:154-162 | sums over all samples, each event count added as reported |
| `Aggregator.Accumulators.RecordGraphql` | src/metrics/aggregate.rs:184-191 | operations, responses with errors, errors |
| `Aggregator.Accumulators.RecordGraphqlWs` | src/metrics/aggregate.rs:217-235 | sums and histograms; messages counted are those with an interval |
| `Aggregator.Accumulators.RecordSoap` | src/metrics/aggregate.rs:256-262 | operations and fault responses |
| `Aggregator.Accumulators.RecordStomp` | src/metrics/aggregate.rs:290-309 | sums and histograms over the significant samples |
| `Aggregator.Accumulators.RecordDb` | src/metrics/aggregate.rs:343-360 | sums and histograms over the significant samples, the last pool size that is not 0 |
| `Aggregator.Accumulators.RecordWs` | src/metrics/aggregate.rs:383-398 | sums and the maximum over the significant samples |
| `Aggregator.Accumulators.RecordGrpc` | src/metrics/aggregate.rs:431-449 | sums, peaks and the least capacity over the significant samples |
| `Aggregator.Accumulators.RecordHttp3` | src/metrics/aggregate.rs:489-506 | sums and extremes over the significant samples, the last window |
| `Aggregator.Accumulators.RecordProtocol` | src/metrics/aggregate.rs:546-568 | a metric reaches the accumulators of its protocol and no other |
| `Aggregator.FinalizeMetrics` | src/metrics/aggregate.rs:665-684 | the loop over the channel ends with the closed forms of everything received: common section, protocol sections and timeline |
| `Timeline.TimelineConserves` | src/metrics/aggregate.rs:584-661 | whenever the metrics arrive, every one is counted in exactly one sample with its latency and its failure, and there is a timeline unless it is off or nothing came |
| `Timeline.CutUnique` | src/metrics/aggregate.rs:621-640 | a run is cut where, and only where, a metric arrives an interval or more after the cut before; no other cutting does that |
| `Timeline.RateExact` | src/metrics/timeline.rs:34-60 | a sample closed in the run is stamped with the arrival of its last metric, and its rate times its span is the number of its metrics |
| `Timeline.Accumulator.RecordLatency` | src/metrics/aggregate.rs:611-619 | the open sample holds one more latency, and one more error if it is one |
| `Timeline.Accumulator.MaybeEmit` | src/metrics/aggregate.rs:621-640 | a sample is closed when its interval is over, and is never empty |
| `Timeline.Accumulator.Finish` | src/metrics/aggregate.rs:642-660 | the samples closed, and one for what is left open |
| `AggregateReport.CommonAccounting` | src/metrics/aggregate.rs:77-107 | sockets created + reused = sum of status codes = metrics received, and faults by type sum to the total |
| `AggregateReport.CommonPermutes` | src/metrics/aggregate.rs:77-107 | the common section depends only on which metrics were received |
| `AggregateReport.SectionsDependOnBag` | src/metrics/aggregate.rs:546-581 | two runs whose significant metrics are the same bag have the same protocol sections, means and rates included, except the two last-observed values |
| `AggregateReport.SectionsPermute` | src/metrics/aggregate.rs:665-684 | in particular the order of delivery does not matter |
| `AggregateReport.OrderFreeExactly` | src/metrics/aggregate.rs:343-506 | the protocol sections are the same in every order of the metrics if and only if all significant HTTP/3 samples show one window and all pool sizes of significant database samples that are not 0 agree |
| `AggregateReport.LastOneShows` | src/metrics/aggregate.rs:343-506 | two metrics with different windows, or with different pool sizes, give different reports when swapped |
| `GrpcSend.BuildFrame` | src/protocols/grpc_h2.rs:40-46 | flag 0, length prefix, payload; the prefix reads as the length modulo 2^32 |
| `GrpcSend.LengthReadBackExactly` | src/protocols/grpc_h2.rs:406-410 | the length is read back if and only if it is below 2^32 |
| `GrpcSend.DriveSend` | src/protocols/grpc_h2.rs:310-373 | for every schedule of credit: chunks are the prefix of the frame the credits paid for, each fits its credit and all but the last use it up, END_STREAM is on the last chunk of a complete send alone, and stalls, stall time and least credit are those of the polls consumed |
| `GrpcSend.CompletesExactly` | src/protocols/grpc_h2.rs:326-372 | a send completes if and only if the credit granted before the stream stops it covers the frame, fails if and only if the stream stops it first, and when it completes the chunks are the frame |
| `GrpcCall.ReadResponse` | src/protocols/grpc_h2.rs:377-411 | status and length of the response, or nothing when response, data or trailers are lost; an HTTP status other than 200 is gRPC status 2 |
| `GrpcCall.SucceedsExactly` | src/protocols/grpc_h2.rs:48-71 | a call is counted as a success if and only if HTTP status is 200, nothing is lost, and the first of trailers and head to name a status names 0, or neither does |
| `GrpcCall.LengthArrives` | src/protocols/grpc_h2.rs:310-411 | a message sent under any completing schedule and returned in the same chunks is read with its length if and only if that is below 2^32, whatever status comes with it |
| `Sse.FrameEndIsFirst` | src/protocols/sse.rs:89-98 | the end found is a delimiter and no delimiter starts before it |
| `Sse.FrameEndStable` | src/protocols/sse.rs:89-98 | more text moves neither the earliest delimiter nor its length |
| `Sse.CutSplit` | src/protocols/sse.rs:67-87 | cutting what arrived first, then the remainder with what follows, is cutting the whole |
| `Sse.CutReassembles` | src/protocols/sse.rs:67-87 | frames, delimiters and remainder put together are the text, and no frame nor the remainder contains a delimiter |
| `SseEvents.Feed.ParseChunk` | src/protocols/sse.rs:67-87 | the draining loop delivers the events of buffer and chunk and keeps their remainder |
| `SseEvents.ReadStream` | src/protocols/sse.rs:67-87 | chunk invariance: for every cutting into chunks, the events delivered and the final buffer are those of the whole text |
| `SseEvents.ParseFrame` | src/protocols/sse.rs:104-137 | the line loop computes the fields by which the round trip is stated |
| `SseRoundTrip.EventRoundTripExactly` | src/protocols/sse.rs:104-137 | a frame is read back as the event it was written for if and only if type and id are single lines not ending in CR and the data has no CR LF |
| `SseRoundTrip.StreamReadBack` | src/protocols/sse.rs:67-137 | any list of such events is read back as that list with nothing left over |
| `SseRoundTrip.ReadWritten` | src/protocols/sse.rs:67-137 | also through any chunking |
| `GraphqlWs.GraphqlWsSession.Reset` | src/protocols/graphql_ws.rs:139-146 | forgets the connection, the subscription and the timing |
| `GraphqlWs.GraphqlWsSession.NextFrame` | src/protocols/graphql_ws.rs:231-275 | the loop is the model's read, pings answered on the way |
| `GraphqlWs.GraphqlWsSession.Initialize` | src/protocols/graphql_ws.rs:189-206 | the loop is the model's wait for the acknowledgement |
| `GraphqlWs.GraphqlWsSession.EnsureInitialized` | src/protocols/graphql_ws.rs:326-337 | connects and initialises as the model does, and resets on failure |
| `GraphqlWs.GraphqlWsSession.SendMalformed` | src/protocols/graphql_ws.rs:340-360 | the corrupted-payload fault reports no telemetry and leaves the session as the model does |
| `GraphqlWs.GraphqlWsSession.Conclude` | src/protocols/graphql_ws.rs:386-439 | each kind of event changes subscription and timing as in the model, and only a delivery is timed |
| `GraphqlWs.GraphqlWsSession.Receive` | src/protocols/graphql_ws.rs:362-439 | subscribes if need be, reads once and acts on it, as in the model |
| `GraphqlWs.GraphqlWsSession.RunIteration` | src/protocols/graphql_ws.rs:313-440 | an iteration, faults included, is the model's |
| `GraphqlWs.RunWorker` | src/protocols/graphql_ws.rs:313-440 | any number of iterations, each possibly dropped, is a run of the model, so that everything said of runs is said of the class |
| `GraphqlWsLaws.FirstMessageExactly` | src/protocols/graphql_ws.rs:340-422 | over any run: a sample carries the time to first message if and only if it is of the first delivery of its subscription, and the interval if and only if it is of a later one; the time to first message is that of the first data message on the record of its subscription if and only if no corrupted-payload iteration of that subscription read one before |
| `GraphqlWsLaws.FirstMessageUncorrupted` | src/protocols/graphql_ws.rs:362-422 | over any run without a corrupted payload: a sample carries the time to first message if and only if its iteration delivered the first data message read since its subscribe frame was written, and the interval if and only if it delivered a later one |
| `GraphqlWsWitness.RightlyExactly` | src/protocols/graphql_ws.rs:340-422 | that is so of every sample of every run if and only if the payload-corruption fault is never drawn |
| `GraphqlWsWitness.FirstMessageSwallowed` | src/protocols/graphql_ws.rs:340-360 | a run of three iterations, for messages of any size, whose time to first message is that of the second data message of its subscription |
| `GraphqlWsLaws.TimesAddUp` | src/protocols/graphql_ws.rs:388-422 | over every run, whatever is dropped: the times reported for a subscription add up to the time from subscribing to its last delivery; data read by a corrupted-payload iteration is not timed |
| `GraphqlWsLaws.DeliveredAt` | src/protocols/graphql_ws.rs:388-401 | a live subscription remembers the time of the last iteration that delivered to it |
| `GraphqlWsLaws.SeenExactly` | src/protocols/graphql_ws.rs:340-422 | the data messages on the record of a live subscription are those delivered and those read by corrupted-payload iterations; its first-message flag is set if and only if one was delivered, and so tells whether there is one if and only if they were not all of the second kind |
| `GraphqlWsLaws.DeliveriesReported` | src/protocols/graphql_ws.rs:340-422 | over any run: the data messages read for a subscription are the samples with a time plus the corrupted-payload iterations that read one, so all are reported with a time if and only if there is no such iteration; none is lost to a drop |
| `GraphqlWsWitness.EarlyDataIgnored` | src/protocols/graphql_ws.rs:195-200 | a data message that comes before the acknowledgement is read, and is neither counted for a subscription nor reported |
| `GraphqlWsLaws.IterationKeeps` | src/protocols/graphql_ws.rs:313-440 | every iteration, with every fault and every network, keeps the session coherent at every await, subscribes at most once and says so, and reports size, errors and times of the message the record shows it read last; a data message read for a subscription is delivered, or read by a corrupted-payload iteration and reported without telemetry |
| `GraphqlWsLaws.NextFrameReads` | src/protocols/graphql_ws.rs:231-275 | the event returned is that of the last message consumed |
| `GraphqlWsLaws.EnsureInitializedKeeps` | src/protocols/graphql_ws.rs:326-337 | ready, reset, or dropped with the session still coherent |

## Left out

- Sockets, TLS, HTTP/2, QUIC, WebSocket and database libraries: foreign code; what they do is an arbitrary input (a script, a schedule, a sample).
- Real time: clocks are arbitrary numbers, deadlines and timeouts are arbitrary choices.
- Floating point: means, rates and the ramp are exact reals.
- HDR histogram internals, percentiles and standard deviations: a histogram is the bag of the values recorded in it, and which value represents a latency is an arbitrary function.
- Weak memory: each atomic operation on the shared counters is one step of a single interleaving.
- Wrap-around of 64-bit counters, receipt numbers and batch numbers: they are unbounded here, except where the decoder's index arithmetic and the latency word depend on it.
- Panicking tasks and poisoned locks.
- `run_orchestrator`'s select loop: it can stop with metrics still in its channel, so no claim is made that every metric of a distributed run reaches a batch.
- The wire fields of a telemetry batch that are copied or derived from the window length (ids of worker and run, times, requests per second) and the free-text error detail.
- Text of bucket labels, error messages and log lines.
- The master side of a distributed run, and the registration, backoff and reconnection of a worker: one session is modelled, from its first command to the end of its teardown.
- The range check on the integers given to seed derivation: inputs are 64-bit words here.
- HTTP, SOAP, GraphQL over HTTP, database, HTTP/3 and plain WebSocket engines: each makes one request and fills in a sample; their samples are arbitrary inputs of the aggregation.
- Configuration, command line, reporters and persistence: they turn one format into another, and no property of a run depends on them.
- The SSE engine around its parser, and the gRPC engine around sending and receiving: connection handling, request headers, the gauge of active streams and the deadline, which is a response that never comes.
- The clock of the timeline is read once per metric; the source reads it up to three times, moments apart.
- SSE works on characters; lossy decoding of a chunk that splits a UTF-8 sequence is not modelled.
- The fields of a STOMP or GraphQL-WS session are grouped into one record inside the class; the source has them side by side.
- A read brings at most 16384 octets, the size of the buffer it fills; scripts with longer reads are excluded.
- A panic of the decoder inside a session drops the iteration, as it would take the task with it.
- A completed write is an await that says so: that the octets reach the peer is not claimed.
- WorkerControlLaws.AcknowledgedRunsAreSeparated: speaks of the session before its teardown, because it is false afterwards; `AcknowledgedTogetherExactly` says when.
