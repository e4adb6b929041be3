# TalkSphere in Dafny

A model of the hard parts of TalkSphere and proofs of what they promise.

**The multiplexed session.** `SessionModel` gives one authenticated connection as a value and every
operation on it as a function; `SessionObject` is the same session with fields updated in place,
each method proved against that function. `Pair*` joins two sessions of opposite role by FIFO links
and proves, over every run, that streams are independent ordered byte channels, that honest ends
never accuse each other of a violation and that refusals and GOAWAY bounds are agreed on. `Life*`
looks at one session facing an arbitrary peer: the order of a stream's events, the account of
probes, closure, backlog, and the wire order of OPEN and GOAWAY; `SessionLife` carries those promises
over to the object and `LifeFairness` those of the scheduler to the wire. `LifeCauses` and `LifeFrames`
say that nothing comes from nothing, `LifeEffects` and `LifeCompletion` that nothing is lost.

**The layers below.** `FrameIO` reads and writes frames over sockets that portion bytes at will,
against the whole-string parser in `Parsing`. `Integrity` and `Tunnel` carry frames over an arbitrary
network. `Handshakes` and `HandshakeRun` establish keys over an active network. `Connections` puts
framing, handshake and integrity together and switches each direction to tagged frames. `Leases`
accounts for shared budgets.

**The whole stack.** `Network` puts sessions on top of sealed frames over an arbitrary network, shows
that nothing but a run on FIFO links can come of it, and joins that with the handshake: from two
HELLOs to ordered streams. `Attached` shows that a connection object over a socket, with the session
object it hands over to, is one node of that network.

**Board publication.** `BoardProvider` keeps a live snapshot consistent with a storage port whose
commit may be uncertain and bounds live revisions; `BoardCache` does the same for remote receipts.

**Exact codecs.** `Codec`, `Decimal`, `Base32` and `RecordCodec`.

What is outside becomes input: time, socket behaviour, cryptographic results, admission to shared
budgets, document parsing and authority checks are parameters, and any values are allowed unless a
lemma's hypotheses say otherwise. Cryptography is never assumed stronger than stated: `Tunnel.Ideal`
(only minted tags verify) with distinct direction material, `HandshakeRun.Ideal` (under an honest
identity key only messages verify that some handshake of that identity had signed, in any session)
and `HandshakeRun.Commutes` (key agreement commutes).

Where code and its comments disagree the model follows the code. The event limit is described as
bounding metadata events when nobody consumes (src/modules/transport/stream/session.rs:137), but
neither starting nor expiring a probe looks at it: `LifePromises.ProbeResultsPileUp` gives, for any
number up to the last instant the clock represents, a run that queues that many probe results while
at most one PING at a time takes output budget. `LifePromises.BoundedExactlyWhenAfforded` gives the
condition on each started probe that is equivalent to a bounded queue, and
`LifePromises.GuardedProbesStayBounded` shows that the check which `open` makes would meet it.

## Model

| member | source | states |
|---|---|---|
| `Codec.KindOf` | src/modules/transport/codec/frame_type.rs:23-39 | A type byte names a kind exactly when it is that kind's byte; every other byte is an unknown type. |
| `Codec.CodeOf` | src/modules/transport/codec/control/error_code.rs:41-61 | A wire number names an error code exactly when it is that code's number. |
| `Codec.NewHeader` | src/modules/transport/codec/header.rs:34-48 | A header of exactly these fields exists for payloads of at most 65,536 bytes and stream identifiers in the kind's scope; an oversized payload is reported first, a wrong scope otherwise. |
| `Codec.HeaderExact` | src/modules/transport/codec/header.rs:50-77 | Decoding yields a header exactly when the bytes are its encoding and it is valid: round trip and canonicality in one. |
| `Codec.HeaderInjective` | src/modules/transport/codec/header.rs:70-77 | Different valid headers have different bytes. |
| `Codec.OpenExact` | src/modules/transport/codec/open.rs:26-80 | OPEN payloads decode exactly to the protocols they were encoded from; anything else is rejected. |
| `Codec.DiagnosticExact` | src/modules/transport/codec/control/diagnostic.rs:80-142 | Diagnostics decode exactly from their encodings, with the code, length, UTF-8 and no-error rules on both sides. |
| `Codec.GoAwayExact` | src/modules/transport/codec/control/goaway.rs:20-72 | GOAWAY payloads decode exactly to the bound and diagnostic they carry. |
| `StreamNumbering.Allocate` | src/modules/transport/stream/ids.rs:44-55 | A local number is new, of the local parity, and is the only one added to the created set; exhaustion means every local number was created. |
| `StreamNumbering.Accept` | src/modules/transport/stream/ids.rs:58-70 | A remote number is accepted exactly when it is the next one of the peer's parity, and is the only one added. |
| `StreamNumbering.WatermarksAreExact` | src/modules/transport/stream/ids.rs:26-93 | After any history of allocations and acceptances the two watermarks answer `was_created` exactly like the full set, and no number repeats. |
| `StreamNumbering.StreamIds.AllocateNext` | src/modules/transport/stream/ids.rs:44-55 | In-place allocation adds exactly one number to the ghost set of all created numbers. |
| `StreamNumbering.StreamIds.AcceptNext` | src/modules/transport/stream/ids.rs:58-70 | In-place acceptance adds exactly the accepted number, or changes nothing. |
| `Scheduler.SelectionExists` | src/modules/transport/stream/session/scheduler.rs:7-39 | A nonempty queue always has a frame to send. |
| `Scheduler.EligibleKeepsLines` | src/modules/transport/stream/session/scheduler.rs:12-31 | Sending any eligible frame first keeps every stream's frames in queue order. |
| `Scheduler.EligibleKeepsOpens` | src/modules/transport/stream/session/scheduler.rs:12-31 | Sending any eligible frame first keeps OPENs in queue order. |
| `Scheduler.DrainKeepsOrder` | src/modules/transport/stream/session/scheduler.rs:7-39 | Draining a whole queue sends every frame once and keeps each stream's order and the order of OPENs. |
| `Scheduler.NobodyServedTwice` | src/modules/transport/stream/session/scheduler.rs:32-39 | While a stream whose head is neither OPEN nor GOAWAY waits unserved, no other stream is served twice, whatever arrives in between. |
| `Scheduler.SelectNext` | src/modules/transport/stream/session/scheduler.rs:7-39 | The loops over the queue find exactly the eligible frame nearest above the last stream served, wrapping around. |
| `SessionObject.Session.constructor` | src/modules/transport/stream/session.rs:81-135 | A new session is the initial model state with one Authenticated event. |
| `SessionObject.Session.OpenOne` | src/modules/transport/stream/session.rs:183-220 | `open` is the model's opening step, error order included; on success the handle is the caller's and OPEN names the selected protocol. |
| `SessionObject.Session.SendBytes` | src/modules/transport/stream/session.rs:225-250 | `send` accepts exactly the owner's bytes of a permitted size for a stream open on this side while there is room, queues them as one DATA frame, and otherwise changes nothing. |
| `SessionObject.Session.EndOne` | src/modules/transport/stream/session/lifecycle.rs:8-33 | `end` succeeds exactly for the owner of a stream open on this side while there is room, closes only that direction and queues END; otherwise nothing changes. |
| `SessionObject.Session.Cancel` | src/modules/transport/stream/session/lifecycle.rs:36-81 | `cancel` succeeds exactly for the owner of a stream the session has: the stream is gone at once, and so is the session exactly when CANCEL does not fit; anybody else changes nothing. |
| `SessionObject.Session.MarkSent` | src/modules/transport/stream/session/lifecycle.rs:84-100 | `sent` records a written END or GOAWAY; a stream whose remote end came before its written END completes here. |
| `SessionObject.Session.TerminateStream` | src/modules/transport/stream/session/lifecycle.rs:193-207 | The retain loop drops exactly the stream's queued frames except OPEN and emits one terminal event. |
| `SessionObject.Session.FinishPings` | src/modules/transport/stream/session/ping.rs:35-58 | Probes are given up in token order, one failure event each. |
| `SessionObject.Session.FinishStreams` | src/modules/transport/stream/session/lifecycle.rs:125-130 | Streams are given up in number order, one failure event each. |
| `SessionObject.Session.CloseWith` | src/modules/transport/stream/session/lifecycle.rs:103-141 | `close` acts once: probes, streams, then ConnectionClosed, and at most one ERROR left in the queue. |
| `SessionObject.Session.DrainFor` | src/modules/transport/stream/session/drain.rs:9-32 | `drain` queues at most one GOAWAY carrying the greatest accepted remote number. |
| `SessionObject.Session.Probe` | src/modules/transport/stream/session/ping.rs:9-32 | `ping` is accepted exactly for a new token, fewer than 64 pending ones, a positive representable deadline and room for the frame. |
| `SessionObject.Session.TickTo` | src/modules/transport/stream/session/ping.rs:35-58 | `tick` leaves pending exactly the probes whose deadline has not come. |
| `SessionObject.Session.AnswerPing` | src/modules/transport/stream/session/ping.rs:70-96 | PING is echoed with its own token, PONG settles its own pending probe only. |
| `SessionObject.Session.AcceptGoaway` | src/modules/transport/stream/session/drain.rs:45-81 | A bound is checked first, then exactly the local streams above it are ended as refused, then the session drains. |
| `SessionObject.Session.AcceptOpen` | src/modules/transport/stream/session/receive.rs:110-133 | The number is consumed before anything else; a stream is opened only for the protocol in the payload and the consumer registered for it; refusals name their reason. |
| `SessionObject.Session.AcceptData` | src/modules/transport/stream/session/receive.rs:79-106 | DATA within the allowance of a stream open to it is delivered whole, leaving all streams alone; otherwise only its stream fails. |
| `SessionObject.Session.ReceiveParts` | src/modules/transport/stream/session/receive.rs:6-133 | Dispatch of every frame kind against the stream table equals the model's. |
| `SessionObject.Session.ReceiveFrame` | src/modules/transport/stream/session.rs:255-303 | Receiving ticks, checks the event limit, dispatches and closes on any error. |
| `SessionObject.Session.TakeStreamEvent` | src/modules/transport/stream/session/scheduler.rs:43-58 | A consumer gets its own oldest event and only that, or none exists. |
| `SessionObject.Session.TakeOutput` | src/modules/transport/stream/session/scheduler.rs:7-39 | The frame taken is the scheduler's choice and the rest of the queue stays in order. |
| `SessionObject.Session.DiscardOutput` | src/modules/transport/connection/mod.rs:331-349 | The drain loop of `release` terminates with an empty queue. |
| `Pair.RunHolds` | src/modules/transport/stream/session/receive.rs:6-133 | The two-party invariant (numbering, control frames, one ordered channel per stream and direction) holds at every point of every run. |
| `Pair.OrderedDelivery` | src/modules/transport/stream/session/scheduler.rs:7-39 | In every run what one end handed out on a stream is a prefix of what the other end's accepted sends supplied, and all of it once RemoteEnd was emitted. |
| `Pair.HonestFramesAreAccepted` | src/modules/transport/stream/session/receive.rs:6-133 | In every run with non-decreasing clocks, delivering the next frame to an open end succeeds or fails for capacity, never for numbering or protocol. |
| `PairEffects.EndsLive` | src/modules/transport/stream/session.rs:255-303 | Either end of every run of a pair lives a life of its own, so every promise of a life holds of it. |
| `PairEffects.PayloadsArrive` | src/modules/transport/stream/session/receive.rs:67-106 | In every run, taking in the next frame hands out exactly its payload if it is DATA that fits, and reports the end if it is END, for a stream the receiver still has. |
| `PairEffects.ProtocolsAgree` | src/modules/transport/stream/session/receive.rs:110-131 | In every run, both ends of a stream report the same protocol for it. |
| `PairAgreement.RefusedMeansNeverOpened` | src/modules/transport/stream/session/drain.rs:45-81 | If one end ever reports a stream as refused by its peer, the peer opens that stream at no point of the run, earlier or later. |
| `PairAgreement.NothingOpensAboveTheBound` | src/modules/transport/stream/session/drain.rs:9-32 | No end ever opens a peer's stream above the bound of a GOAWAY it queues at any point of the run. |
| `Network.RunIsPairRun` | src/modules/transport/connection/io.rs:6-157 | Every run of two sessions over sealed frames and an arbitrary network passes, point by point, through a run of two sessions on FIFO links. |
| `Network.DeliveredInOrder` | src/modules/transport/integrity/mod.rs:83-179 | Over an arbitrary network, what one end handed out on a stream is a prefix of what the other end's accepted sends supplied, and all of it once RemoteEnd was emitted. |
| `Network.VerifiedIsAcceptable` | src/modules/transport/connection/io.rs:81-157 | Nothing the network can get past verification makes an honest session see a numbering or protocol violation. |
| `Network.RefusalsAreAgreed` | src/modules/transport/stream/session/drain.rs:45-81 | Over an arbitrary network, a stream reported as refused by the peer is opened by the peer at no point of the run. |
| `Network.EveryFrameFits` | src/modules/transport/codec/header.rs:34-48 | Whatever a session queues in any such run has a valid header, so no frame is ever refused by the header constructor. |
| `Network.EndToEnd` | src/modules/transport/connection/mod.rs:246-268 | Two of any number of handshakes over an active network that met hand over to two sessions whose streams are ordered byte channels over an arbitrary network. |
| `Network.PinnedEndToEnd` | src/modules/transport/handshake/state.rs:206-283 | The same from a single pin on an honest identity: the partner exists, has that identity, and whatever sessions continue from the two deliver in order. |
| `LifePromises.StreamsLiveInOrder` | src/modules/transport/stream/session/lifecycle.rs:84-207 | For every peer: Opened, Data*, at most one RemoteEnd, one Closed, under one handle; Completed only after RemoteEnd and a written END; an opened stream has had its Closed exactly when it is out of the table, which closure empties. |
| `LifePromises.PhasesMeanStories` | src/modules/transport/stream/session/receive.rs:34-106 | The event automaton and the reading by log positions accept exactly the same logs. |
| `LifePromises.EveryProbeIsAnswered` | src/modules/transport/stream/session/ping.rs:9-96 | Accepted probes equal results plus pending ones at all times; after closure every accepted probe has exactly its one result. |
| `LifePromises.ClosureIsLast` | src/modules/transport/stream/session/lifecycle.rs:103-141 | ConnectionClosed is emitted exactly when the session is closed, once, as the last event ever. |
| `LifePromises.BacklogIsBounded` | src/modules/transport/stream/session.rs:138-148 | At most S streams, 64 probes, the configured bytes per stream, and event limit + S + 1 queued events other than probe results. |
| `LifePromises.ProbeResultsPileUp` | src/modules/transport/stream/session/ping.rs:9-58 | Probe results are not under the event limit: for every n up to the last representable instant a run without any received frame queues n of them, each PING being written out before the next is queued, so that at most one frame ever holds output budget. |
| `LifePromises.BoundedExactlyWhenAfforded` | src/modules/transport/stream/session/ping.rs:9-58 | The exact condition: a life never owes more events than the event limit, 64 probes, S streams and closure together if and only if each of its accepted probes was started with the owed total below that ceiling. |
| `LifePromises.TotalIsLengthAtClosure` | src/modules/transport/stream/session/lifecycle.rs:103-141 | The owed total of any reachable session is the length its event queue would have if it closed at once. |
| `LifePromises.GuardedProbesStayBounded` | src/modules/transport/stream/session.rs:199-203 | The guard `open` has is one way to meet that condition: with probes started only below the event limit, the whole queue is bounded. |
| `LifePromises.NoOpenAfterGoaway` | src/modules/transport/stream/session/scheduler.rs:27-31 | No OPEN reaches the wire after a GOAWAY, in any run. |
| `LifeFairness.EveryStreamGetsItsTurn` | src/modules/transport/stream/session/scheduler.rs:7-39 | In every life, while a stream waits unserved with a head that is neither OPEN nor GOAWAY, no other stream gets two frames onto the wire, whatever calls and frames come in between. |
| `LifeFairness.OnlyOutputTurns` | src/modules/transport/stream/session/scheduler.rs:32-39 | No call but handing a frame to the writer moves the rotation. |
| `LifeCompletion.StreamsComplete` | src/modules/transport/stream/session/lifecycle.rs:84-169 | In every life a stream whose remote end was reported and whose END is fully written has been closed; the table keeps no stream that is done in both directions. |
| `LifeCauses.EveryEventHasItsCause` | src/modules/transport/stream/session/receive.rs:6-133 | Every event of every life has its cause in the call that emitted it: data, ends and probe answers in their own frame, a stream's owner and protocol in the caller's selection or the registry's entry for the peer's, each failure in its fault, limit or the peer's word, each closure in what closed the session. |
| `LifeFrames.EveryFrameHasItsCause` | src/modules/transport/stream/session.rs:155-250 | Every queued frame was queued before or has its cause in this call, with the bytes, token, reason or bound it names, and by the stream's owner. |
| `LifeEffects.DataIsDelivered` | src/modules/transport/stream/session/receive.rs:79-106 | DATA for a stream reported open and not ended, within the consumer's allowance, is delivered whole and changes nothing else. |
| `LifeEffects.EndIsReported` | src/modules/transport/stream/session/receive.rs:67-78 | END for such a stream is reported, and completes it if the local END is out. |
| `LifeEffects.TerminationIsReported` | src/modules/transport/stream/session/receive.rs:42-66 | The peer's CANCEL or ERROR ends exactly the stream it names, with the outcome it names, and drops that stream's queued production. |
| `LifeEffects.OpenIsReported` | src/modules/transport/stream/session/receive.rs:110-131 | OPEN with the next number for a registered protocol opens the stream for the consumer registered for it. |
| `LifeEffects.RefusalNamesItsReason` | src/modules/transport/stream/session/receive.rs:110-124 | A turned down OPEN uses up its number, opens nothing and is answered with its reason. |
| `LifeEffects.FaultEndsItsStream` | src/modules/transport/stream/session/receive.rs:67-106 | DATA or END out of state, or over the allowance, ends its stream and no other, with its code to the consumer and to the peer. |
| `LifeEffects.PingIsEchoed` | src/modules/transport/stream/session/ping.rs:70-84 | Every PING is echoed with its own token as long as there is room. |
| `LifeEffects.PongSettles` | src/modules/transport/stream/session/ping.rs:85-96 | PONG settles its pending probe with the time since it was started. |
| `LifeEffects.DeadlinesAreKept` | src/modules/transport/stream/session/ping.rs:35-58 | Probes expire at their deadlines, all of them and no others. |
| `LifeEffects.LateFramesAreDropped` | src/modules/transport/stream/session/receive.rs:34-41 | Frames of a stream already closed are dropped without a trace. |
| `LifeEffects.BoundIsObeyed` | src/modules/transport/stream/session/drain.rs:45-81 | An acceptable bound ends every local stream above it as refused and no other, makes the session drain and remembers why. |
| `LifeEffects.ViolationsClose` | src/modules/transport/stream/session.rs:255-303 | A session closes for a violation exactly when a frame is one, and says so to its consumers and its peer. |
| `LifeEffects.ForeignersAreRefused` | src/modules/transport/handles.rs:151-168 | A call with somebody else's handle or another connection's changes nothing at all. |
| `LifeEffects.OnlyOwnersAct` | src/modules/transport/handles.rs:151-168 | Whoever changes anything with a handle the session gave out is the consumer it was given to. |
| `LifeEffects.BytesAreQueued` | src/modules/transport/stream/session.rs:225-250 | An owner's bytes for a stream open on this side are accepted and queued whole. |
| `LifeEffects.EndIsQueued` | src/modules/transport/stream/session/lifecycle.rs:8-33 | An owner's END closes that side only. |
| `LifeEffects.CancelTakesEffect` | src/modules/transport/stream/session/lifecycle.rs:36-81 | An owner's cancellation ends the stream at once, drops its queued production and tells the peer why. |
| `LifeEffects.CancellationCrosses` | src/modules/transport/stream/session/receive.rs:42-66 | A cancellation reaches the peer's consumer as one by the peer for the same reason. |
| `LifeEffects.StreamIsOpened` | src/modules/transport/stream/session.rs:183-220 | A consumer's stream gets the next number, its own handle, and an OPEN that names the selected protocol. |
| `LifeEffects.DrainIsAnnounced` | src/modules/transport/stream/session/drain.rs:9-32 | Draining announces the greatest accepted remote number, once. |
| `LifeEffects.DrainedIsReady` | src/modules/transport/stream/session/drain.rs:34-42 | A drained session whose GOAWAY is out, whose queue is empty and whose streams were all closed is ready to close. |
| `LifeEffects.ClosureNamesItsReason` | src/modules/transport/stream/session/lifecycle.rs:103-141 | Closing is reported with its reason, or with the reason the peer drained for, and leaves nothing pending. |
| `SessionLife.ObjectIsBounded` | src/modules/transport/stream/session.rs:138-148 | The session object, whoever calls it and whatever its peer sends, never holds more streams, probes, buffered bytes or events than BacklogIsBounded says. |
| `SessionLife.ObjectKeepsItsPromises` | src/modules/transport/stream/session/lifecycle.rs:84-207 | What the object has emitted and written so far keeps every promise of a life, and matches the streams, probes and closure its fields show now. |
| `SessionLife.Owned.Receive` | src/modules/transport/stream/session.rs:255-303 | Any frame from any peer is a step of the object's life. |
| `SessionLife.Owned.NextOutput` | src/modules/transport/stream/session/scheduler.rs:7-39 | A frame handed to an idle writer is the next one on the wire of the object's life; none is handed out exactly when none is queued. |
| `SessionLife.Owned.OutputWritten` | src/modules/transport/stream/session/lifecycle.rs:84-100 | Reporting a written frame is a step of the object's life. |
| `Wire.CoveredExact` | src/modules/transport/framing/mod.rs:42-57 | The bytes a tag covers determine header and payload. |
| `Parsing.ParseExact` | src/modules/transport/codec/header.rs:50-110 | A string starts with a frame exactly when it is that frame's encoding followed by the rest. |
| `Parsing.ParseAllFlat` | src/modules/transport/framing/reader.rs:29-104 | Parsing frames laid end to end returns those frames. |
| `Parsing.FramesCrossIntact` | src/modules/transport/framing/reader.rs:29-104 | If the bytes of one frame list are a prefix of another's, under the same phases, so are the frames. |
| `FrameIO.FrameReader.PollFrame` | src/modules/transport/framing/reader.rs:29-104 | Under any script of reads, the answer is the whole-string parser's on the remaining input, and no byte past the frame is consumed; it waits only when told to or when its budget is spent, and blames the socket only for what it did. |
| `FrameIO.FrameWriter.Start` | src/modules/transport/framing/writer.rs:24-52 | A frame is admitted exactly when the writer is idle and sound and the tag matches the phase. |
| `FrameIO.FrameWriter.PollFlush` | src/modules/transport/framing/writer.rs:58-96 | Under any script of writes, the socket holds the finished frames and a beginning of the current one, nothing else; it waits only in mid-frame, when told to or when its budget is spent. |
| `FrameIO.ReaderAgreesWithParser` | src/modules/transport/framing/reader.rs:29-104 | All frames ever handed out are the whole-string parser's frames of the whole input. |
| `FrameIO.ReaderFollowsWriter` | src/modules/transport/framing/writer.rs:58-96 | What a reader hands out of a writer's bytes is a prefix of the frames the writer was given. |
| `Integrity.NonceInjective` | src/modules/transport/handshake/keys.rs:73-82 | Under one prefix different sequence numbers give different nonces. |
| `Integrity.Integrity.SealFrame` | src/modules/transport/integrity/mod.rs:83-123 | Sealing in place: one pending frame, no sealing at the last number, keys gone on failure. |
| `Integrity.Integrity.MarkSent` | src/modules/transport/integrity/mod.rs:128-145 | The number advances only after a pending frame was written. |
| `Integrity.Integrity.VerifyFrame` | src/modules/transport/integrity/mod.rs:150-179 | Verification uses exactly the next number and advances only on success. |
| `Tunnel.ReleasedIsWhatWasSealed` | src/modules/transport/integrity/mod.rs:83-179 | With ideal tags and distinct direction material, whatever the network does, each end released exactly the first frames its peer sealed, as many as its counter says. |
| `Tunnel.NextFrameIsReleased` | src/modules/transport/integrity/mod.rs:150-179 | In every run the next sealed frame, delivered unharmed to an end that still has its keys, verifies and is released. |
| `Tunnel.NoncesAreFresh` | src/modules/transport/handshake/keys.rs:73-82 | In every run no two tags are computed under the same key and nonce, across both ends. |
| `Tunnel.CountersNeverWrap` | src/modules/transport/integrity/mod.rs:128-179 | Completing a write never exhausts the counter, and no verified frame does. |
| `Transcripts.HelloExact` | src/modules/transport/codec/handshake.rs:26-66 | HELLO decodes exactly from its encoding. |
| `Transcripts.TranscriptInjective` | src/modules/transport/handshake/transcript.rs:17-28 | A transcript fixes both HELLOs and their roles. |
| `Transcripts.AuthenticationInjective` | src/modules/transport/handshake/transcript.rs:38-54 | A signed message fixes role and transcript. |
| `Handshakes.KeysMirror` | src/modules/transport/handshake/keys.rs:28-70 | Opposite roles over one transcript and one agreed secret hold mirrored keys and prefixes. |
| `Handshakes.Handshake.Sent` | src/modules/transport/handshake/state.rs:107-125 | Only HELLO and then AUTH, each once, may be reported; anything else closes and drops all secrets. |
| `Handshakes.Handshake.Receive` | src/modules/transport/handshake/state.rs:130-143 | A HELLO is answered, a proof gives keys; every failure closes and drops all secrets. |
| `Handshakes.Handshake.Take` | src/modules/transport/handshake/state.rs:179-192 | Facts and keys leave together, once, exactly when AUTH was written and the peer verified. |
| `HandshakeRun.FactsAreReleasedOnce` | src/modules/transport/handshake/state.rs:171-202 | In every run of any number of handshakes facts leave each at most once, only after local AUTH was written and the peer's proof verified, and meet any pin; a closed handshake holds no key. |
| `HandshakeRun.ProofMeansMeeting` | src/modules/transport/handshake/state.rs:206-269 | Among any number of handshakes, a verified proof under an honest key, replayed or not, means that a handshake of that identity and the opposite role took in this one's HELLO and this one took in its. |
| `HandshakeRun.MetMeansMirrored` | src/modules/transport/handshake/keys.rs:28-70 | Two handshakes that took in each other's HELLO release mirrored facts: identities crossed, send keys equal to receive keys. |
| `HandshakeRun.Agreement` | src/modules/transport/handshake/state.rs:107-283 | Whatever the network delivered, a handshake that released facts about an honest identity key has met one of that identity, and if that one released facts too they mirror each other. |
| `HandshakeRun.PinnedMeansMeeting` | src/modules/transport/handshake/state.rs:234-236 | A handshake that pinned an honest identity and released facts has met a handshake of that identity. |
| `HandshakeCompletion.HandshakesComplete` | src/modules/transport/handshake/state.rs:107-283 | From any start, two handshakes of opposite role that welcome each other can be run to the point where both released facts, once, and the facts mirror each other. |
| `Connections.Connection.constructor` | src/modules/transport/connection/mod.rs:79-131 | A connection starts with the HELLO of its handshake as its only output and the deadline running. |
| `Connections.Connection.Fail` | src/modules/transport/connection/mod.rs:291-328 | A failing connection stays to reply exactly when no frame is half written, the next frame's protection is settled, a response exists and its deadline is representable; the one untagged ERROR is queued only before AUTH was begun; closure is reported once. |
| `Connections.Connection.Abort` | src/modules/transport/connection/mod.rs:271-288 | Closure before authentication is reported exactly once; what the socket took and gave stays accounted for. |
| `Connections.Connection.Establish` | src/modules/transport/connection/mod.rs:246-268 | The handover happens exactly when the handshake has facts to release; it keeps both directions' phases and installs exactly the keys of those facts, with an idle writer. |
| `Connections.Connection.Write` | src/modules/transport/connection/io.rs:6-78 | At most one frame is begun: the session's choice under a tag or the handshake's next line without one, when the writer is idle; a frame on offer is begun unless the connection ends; no progress means that nothing is on offer or the socket waits. |
| `Connections.Connection.NextFrame` | src/modules/transport/connection/io.rs:81-122 | The reader is polled under one phase per frame; PhaseChanged is unreachable; no answer means that the socket waits or keys are missing. |
| `Connections.Connection.Read` | src/modules/transport/connection/io.rs:81-157 | A frame read is verified under the next number, or moves the handshake on, or ends the connection; without progress nothing changed, and the socket waits or keys are missing; reading begins no frame. |
| `Connections.Connection.Unseal` | src/modules/transport/integrity/mod.rs:150-179 | One frame is verified under the next number; on any failure the connection ends and tells the session why. |
| `Connections.Connection.Settle` | src/modules/transport/connection/io.rs:139-152 | A session that closed on a frame leaves an idle writer time for its last words and ends a busy one's connection. |
| `Connections.Connection.PollAll` | src/modules/transport/connection/mod.rs:186-234 | An overdue connection ends with its one report; an idle writer begins what is on offer in the first round; polling stops when the connection is over, after 32 rounds of which each but the last and the one that turned it to closing finished a frame, or when neither side of the socket moves. |
| `Connections.Connection.PollOnce` | src/modules/transport/connection/mod.rs:208-229 | One round: progress finishes a frame unless the connection turns to closing; without progress there is nothing to write or the socket waits, and likewise for reading; a drained session with an idle writer does not stay open. |
| `Connections.WrittenUnderDiscipline` | src/modules/transport/connection/io.rs:6-78 | Open, failed or released: the bytes accepted by the socket are a beginning of the frames begun, untagged ones only up to and including AUTH, tagged ones only after it; and the bytes given by the socket begin with the frames read, under the same discipline. |
| `Connections.ConnectionsAgreeOnFrames` | src/modules/transport/connection/io.rs:6-157 | Across the switch from untagged to tagged frames, what one connection has read is a prefix of what the other began, whether or not either has ended. |
| `Attached.Attachment.constructor` | src/modules/transport/connection/mod.rs:246-268 | Right after the handover, connection and session together are a node of the network under the handshake's facts. |
| `Attached.Attachment.Emit` | src/modules/transport/connection/io.rs:6-46 | A queued frame is taken, sealed and started, or its connection ends over it: exactly one step of the node; with nothing queued a closing connection ends and any other stays as it is. |
| `Attached.Attachment.Flush` | src/modules/transport/connection/io.rs:47-78 | However the socket portions it: the step that a frame is written, the loss of the node's connection, or no step while the socket waits. |
| `Attached.Attachment.Intake` | src/modules/transport/connection/io.rs:81-157 | Whatever bytes the socket gives: a frame read and verified is passed on to an open session as that step of the node, a bad tag ends the connection, and no progress means that the socket waits. |
| `Attached.Attachment.Call` | src/modules/transport/stream/session.rs:183-303 | Every consumer's call is one step of the node. |
| `Attached.GoesOn` | src/modules/transport/connection/mod.rs:186-234 | Whatever one end reaches by its steps, every run of the network up to there goes on to it. |
| `Attached.AttachmentsStart` | src/modules/transport/connection/mod.rs:246-268 | Two connections whose handshakes met begin a run of the network. |
| `Attached.AttachmentsDeliver` | src/modules/transport/connection/io.rs:6-157 | Wherever the steps of two connections with sessions lead, every stream is an ordered byte channel between them, every queued frame can be emitted, and each socket took a beginning of the handshake's lines and the frames sealed. |
| `Leases.Counter.Admit` | src/modules/transport/resources.rs:90-105 | A reservation is granted exactly when it fits the limit. |
| `Leases.Counter.Share` | src/modules/transport/resources.rs:117-127 | Keeping a reservation alive across a hand-over adds a guard and charges nothing. |
| `Leases.Counter.LetGo` | src/modules/transport/resources.rs:108-114 | The last guard to go gives exactly its amount back. |
| `Leases.MoveConserves` | src/modules/transport/integrity/mod.rs:114-121 | Every hand-over from queue through seal to writer keeps guards and share counts equal. |
| `Leases.ReleaseConserves` | src/modules/transport/connection/mod.rs:331-349 | A connection that goes away takes exactly its own guards with it, and conservation holds without it. |
| `Leases.LeasesAreConserved` | src/modules/transport/resources.rs:90-114 | In every run of several owners, failed seals and releases included, the counter is the sum of live leases and within its limit, and a lease lives exactly while some owner guards it. |
| `Leases.MovesArePossible` | src/modules/transport/framing/writer.rs:42-92 | No hand-over ever finds its reservation gone. |
| `Leases.NothingHeldNothingCharged` | src/modules/transport/resources.rs:108-114 | When no owner holds anything nothing is charged. |
| `Leases.ReleaseAll` | src/modules/transport/connection/mod.rs:331-349 | The release loops turn a conserved world into a conserved one with that owner empty and every other lease untouched. |
| `BoardRecords.Prepare` | src/modules/board/prepared.rs:25-73 | Preparation succeeds exactly on publishable records and gives back the very record. |
| `BoardPins.KeepLive` | src/modules/board/state.rs:119 | Pruning keeps exactly the live revisions, each once. |
| `BoardProvider.Provider.Publish` | src/modules/board/state.rs:152-229 | Success is exactly an acknowledged commit of a candidate that passed every check, second assessment included; a reached commit whose fate is unclear, and nothing else, makes the owner uncertain; live content changes on success only. |
| `BoardProvider.Provider.Recover` | src/modules/board/state.rs:109-148 | Recovery without replay: it succeeds exactly when the port loads nothing or a publishable record of this publisher that fits; afterwards live and stored are the same, or nothing changed. |
| `BoardProvider.Provider.Read` | src/modules/board/state.rs:233-248 | With authority, a read succeeds exactly when the last write is resolved and something is stored, and returns the stored publication; Missing and Unknown mean exactly the two other cases. |
| `BoardProvider.Provider.DropHandle` | src/modules/board/state.rs:188-204 | Dropping references, like cloning them, keeps live revisions within the limit. |
| `BoardProvider.Open` | src/modules/board/state.rs:79-106 | Opening succeeds exactly on an empty port or a publishable record of this publisher, and serves it. |
| `BoardCache.Cache.Store` | src/modules/board/cache.rs:76-112 | Success exactly when authority, parsing, clock and room allow; the receipt replaces the one of the same provenance and others only expire; entries and live revisions stay within their limits. |
| `BoardCache.Cache.Receipt` | src/modules/board/cache.rs:117-131 | With authority, a read gives the filed receipt exactly while it is fresh, else says Missing or Stale. |
| `BoardCache.Cache.Attach` | src/modules/board/cache_definitions.rs:14-48 | For any receipt, of this cache or another: a definition joins exactly the very receipt it was fetched for, while filed and fresh and within limits, as a new revision of it. |
| `BoardCache.Cache.Current` | src/modules/board/cache_definitions.rs:68-79 | Comparing pointers is comparing receipts: the answer is Ok exactly for the filed and fresh receipt itself. |
| `BoardCache.Cache.Definition` | src/modules/board/cache_definitions.rs:52-66 | A definition is given exactly for the filed and fresh receipt asked about, and is that entry's. |
| `Decimal.Integer` | src/modules/board/offering.rs:103-144 | For every number token shorter than 2^63 characters, the result is v exactly when the token's rational value is v and v fits 64 bits. |
| `Decimal.Accumulate` | src/modules/board/offering.rs:133-143 | Checked accumulation returns digits times the power of ten exactly when that fits 64 bits. |
| `Decimal.DroppedPlaces` | src/modules/board/offering.rs:121-127 | Dropping places leaves an integer exactly when only zeros are dropped. |
| `Decimal.FarScale` | src/modules/board/offering.rs:118-122 | Exponents beyond the 64-bit range leave no integer, because the token is too short to make up for them. |
| `Base32.Format` | src/modules/identity/text.rs:7-28 | The accumulator loops write exactly the identity's 256 bits and four zero bits in 52 symbols. |
| `Base32.Parse` | src/modules/identity/text.rs:33-63 | The accumulator loops read exactly the identity a text stands for, and reject the rest. |
| `Base32.RoundTrip` | src/modules/identity/text.rs:7-63 | Parsing a formatted identity gives it back. |
| `Base32.ParsedExactly` | src/modules/identity/text.rs:33-63 | A text stands for an identity exactly when it is its canonical text up to letter case behind the prefix. |
| `Base32.NormalizedTwice` | src/modules/identity/text.rs:68-71 | Normalizing is idempotent and keeps the identity. |
| `Base32.Normalize` | src/modules/identity/text.rs:68-71 | The normal form, or rejection. |
| `RecordCodec.Encode` | src/modules/board/record_codec.rs:20-47 | Encoding succeeds exactly on records within every limit, and what it writes decodes to the same record. |
| `RecordCodec.Decode` | src/modules/board/record_codec.rs:50-92 | The cursor loop computes the reference parser. |
| `RecordCodec.DecodedExactly` | src/modules/board/record_codec.rs:20-92 | Decoding accepts exactly the layouts, in any order of definitions, of records within the limits. |
| `RecordCodec.NeighboursAreRejected` | src/modules/board/record_codec.rs:50-92 | Every strict prefix and every proper extension of an encoding is rejected. |
| `RecordCodec.DecodedWithinLimits` | src/modules/board/record_codec.rs:50-131 | Whatever decodes respects every field, count, aggregate and envelope limit. |

## Left out

- SessionModel: admission to the shared byte budget is an input of each call, since other connections change it; `Leases` models the budget itself.
- SessionModel: frames are kept with kind, identifier and payload; `Network.EveryFrameFits` shows that each has a valid header.
- Connections.Connection: the session is an input (its next frame, whether it closed or is ready to close), because the phase discipline does not depend on stream state; `Attached.Attachment` joins the two.
- Connections.Connection: reservations of handshake frames are one admission input per call.
- Network.Node: frames of a session released in mid-write stay in its queue, from which nothing can take them any more.
- Attached.Attachment: the polling loop over its steps; `Connections.Connection.PollAll` models that loop.
- SessionLife.Owned: discarding the queue of a released session is not a step of a life; `SessionObject.Session.DiscardOutput` models it.
- BoardProvider.Provider: weak and strong reference counts are a multiset of references in consumers' hands; poisoned locks are not modelled.
- BoardProvider.Provider: `current_selection` and `definition` on snapshots, which are lookups.
- BoardRecords.Prepare: document parsing, contract comparison and semantic assessment are arbitrary functions.
- Decimal.Integer: the token is taken as the text the JSON library keeps for a number.
- RecordCodec.Encode: identifiers are required to be UTF-8, which the string type of the original guarantees.
- Handshakes.Handshake: the four derivation steps fail as one, since any failure has the same effect.
- Leases.ReleaseAll: covers the outbound budget; the connection budget is the same counter with amount one.
- TCP, the reactor, clocks, signals, the command line, logging and the driver's polling loop.
- Cryptographic primitives, key storage and entropy.
- Linux file stores, JSON trees, schemas, offering fields, capability grants and the protocol registry beyond a map from protocol to owner.
- The ledger, contact query strings and address literals.
