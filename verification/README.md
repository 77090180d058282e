# p2p-netcat: the byte-stream stack, modelled and proved

p2p-netcat carries terminals and TCP connections between two peers over WebRTC data channels
that can be lost and replaced. This project models the hand-written layers that make one
reliable byte stream out of such channels, and proves what they promise for every input, every
interleaving and every reachable state. `dafny verify dfyconfig.toml` checks it.

## The layers

| files | what they model |
|---|---|
| `Bytes`, `BigEndian`, `Text`, `Source` | chunks and byte strings, big-endian integers, text fields, an iterator of chunks |
| `StreamModel`, `WebRtcStream`, `StreamRuns` | one `WebRtcStream`, cut at every `await`: its regions, the object, and every run |
| `ControlText`, `Utf8` | the text of a control, and the decoder of text |
| `StreamPair`, `StreamBooks`, `PairCredit`, `PairDelivery` | two streams over channels that die and are replaced, each side bound to them in its own order: credit, and delivery without loss |
| `PairOrder`, `PairCrossing` | what arrives at most once, exactly when it arrives in order, and a run in which it does not |
| `StreamEnd`, `StreamClose` | how reading ends, and how `close()` fails |
| `PairBuffer`, `PairOverflow` | the receive queue in runs with losses |
| `PairComplete`, `PairLoss`, `PairCutShort` | when the end of a stream can be believed, and when not |
| `PairProgress`, `PairWakeup`, `PairRelease`, `PairEnd` | a parked sender: what is to come for it, exactly what wakes it, and what it hears when the other stream ends |
| `PtyCodec`, `PtySender` | the PTY frame codec, and the sender with its two water marks |
| `SessionAuth`, `AuthenticatedStream` | the 62-byte admission frames, and the stream behind them |
| `WholeStack` | senders, admission, stream pair and decoders together, in both directions |
| `Forwarding` | the SOCKS reader and negotiation |
| `WorkerCredit` | the output credit between the network Worker and the page |
| `NativePeer`, `CandidateCache`, `CandidatePath` | the candidate queue of a peer, the listener's cache, and a candidate's way through both |
| `StreamLinks`, `Listener`, `ListenerRuns`, `ListenerCandidates`, `ListenerLinks`, `ListenerCrossing` | the listening endpoint |
| `Client`, `ClientRuns`, `ClientLinks` | the connecting endpoint |
| `LinkHistory` | what an endpoint does to a stream, and the runs of the pair that do it |
| `Pairing` | base64url, and the rendezvous windows |

Each object that the program changes in place is a class. What a method does to it is stated by
a function on a value of the same state (`ensures State() == Step(old(State()))`), and the
properties are proved about runs of those functions: a run is a list of events in any order.
A class is `Valid()` when a run reaches its state (or when it satisfies what every run keeps),
and every method keeps that, so the run results hold of the objects themselves.

The endpoint model and the pair model meet in `StreamLinks.Disciplined`. `ListenerRuns` and
`ClientRuns` prove that the endpoints treat every stream with that discipline: it is bound to
one connection at a time, told of a loss before another is bound, never bound to the same
connection twice, and handed frames of the bound one only. `LinkHistory` proves that both sides
of the pair obey it in every run, and that whatever two endpoints with that discipline do to
their two streams, in whatever interleaving and on whatever channels, dead or live, is done by a
run of the pair. The two sides need not bind the same channels, nor in the same order.

## What the proofs found

The code is modelled as it is. Where a natural expectation fails, the exact condition and a
run that reaches it are proved.

- A second loss that lands between the wake-up of a waiting `send` and its continuation fails
  the whole send chain although the stream stays open (`StreamRuns.OpenChainBreaks`,
  `StreamRuns.QuickLossBreaksChain`).
- A refused `sendData` marks the stream as reconnecting although its channel is live and still
  bound, and an open stream then stays so until it is bound anew
  (`PairDelivery.DetachedByRefusal`, `PairDelivery.RefusalDetachesLiveChannel`,
  `PairCredit.StaysReconnecting`).
- When the application of a receiver leaves its loop, the bytes it did not take are never
  acknowledged. A sender parked on the window then stays parked as long as the channel lives and
  neither stream is ended (`PairWakeup.StuckForGood`, `PairWakeup.StuckIsReached`). Deliveries
  and reads wake a parked sender exactly when it is not in that state (`PairRelease.WokenExactly`),
  and then in whatever order they are taken (`PairRelease.EveryScheduleWakes`).
- A SOCKS name that is not well-formed UTF-8, or begins with a byte order mark, reaches the
  connector as another name (`Forwarding.NameComesBack`, `Forwarding.NamesAreConfused`).
- The listener can bind a stream to a connection that is already closed
  (`ListenerLinks.DeadLinkExactly`, `ListenerLinks.LateReadyIsReached`).
- The client can keep a claimed peer that is gone, and then makes no further attempt
  (`ClientLinks.StrandedExactly`, `ClientLinks.StrandedRuns`, `ClientLinks.FailedReadyStrands`).
- base64url texts are not unique (`Pairing.Base64UrlCanonical`, `Pairing.TextsAreNotUnique`).
- `close()` fails exactly when the send chain broke before it drained or the `eof` was not sent.
  No `eof` follows, and the stream stays closing until an abort or the loss of the peer
  (`StreamClose.CloseFails`, `StreamClose.FailedCloseStays`, `StreamClose.FailedCloseEnds`;
  runs: `StreamClose.RefusedEofLingers`, `StreamClose.BrokenChainLingers`).
- The iterator ends as if the stream were complete, without an `eof`, exactly when the peer is
  lost for good, or the stream is aborted while no `next` is parked
  (`StreamEnd.EveryEnding`, `StreamEnd.EndsAsIfComplete`; runs: `PairCutShort.LossCutsShort`,
  `PairCutShort.AbortCutsShort`).
- Chunks arrive in the order in which they were sent exactly when the channels that carry them
  were bound by the receiver in the order of the sender (`PairOrder.InOrderExactly`). The listener
  can bind them in the other order: when the client has moved on from a connection before its
  AUTH_READY was seen, and the later connection is lost at the listener first
  (`ListenerCrossing.OlderComesLater`, `ListenerCrossing.CrossedAtTheListener`,
  `PairCrossing.OrderIsLost`).
- After an `eof` the application gets all that was sent exactly when no chunk was lost or left
  behind, and in order exactly when the channels were used in the order of the sender
  (`PairLoss.EofIsCompleteExactly`), as on the first channel while that lives
  (`PairComplete.EofOnFirstChannel`). A chunk that is lost with its channel is not sent again, and
  the `eof` on the next channel hides that (`PairCutShort.ReplacedChannelCutsShort`).
- A reconnect makes the sender count from zero while its peer still holds the old bytes, so the
  receive queue can exceed the limit, by what the sender forgot at most
  (`PairBuffer.BufferWithLosses`), and `PairOverflow.OverflowIsReached` is a run that attains that.

## Model

| member | source | states |
|---|---|---|
| `StreamObject.WebRtcStream.constructor` | packages/core/src/index.js:304-331 | a new stream is open, connected, writable, empty, and meters nothing until its peer has said `flow:1` |
| `StreamObject.WebRtcStream.Send` | packages/core/src/index.js:333-355 | a chunk is refused exactly when the stream is not writable; otherwise it joins the end of the chain and nothing else changes |
| `StreamObject.WebRtcStream.ChainStep` | packages/core/src/index.js:333-355 | the next region of the running `send`: which of its awaits it passes, parks at or fails at, in the order peer, window, peer, hand-over |
| `StreamObject.WebRtcStream.WaitForPeer` | packages/core/src/index.js:503-512 | the first half of the wait for the peer: pass when connected, fail when closed or disconnected, else park |
| `StreamObject.WebRtcStream.PeerResumed` | packages/core/src/index.js:507-511 | a woken wait tests again and fails when the peer is not connected at that moment |
| `StreamObject.WebRtcStream.WaitForFlowWindow` | packages/core/src/index.js:488-501 | parks exactly while the guard of the window holds, and fails when the stream can no longer be written |
| `StreamObject.WebRtcStream.HandOver` | packages/core/src/index.js:341-345 | the credit is spent before the transport is asked, and only when flow control is on |
| `StreamObject.WebRtcStream.SendOk` | packages/core/src/index.js:345-346 | a chunk that the transport took is done |
| `StreamObject.WebRtcStream.SendFailed` | packages/core/src/index.js:347-352 | a refused chunk gives its credit back, even below zero; the operation fails if the stream is over, else the peer counts as lost and the chunk is tried again |
| `StreamObject.WebRtcStream.CloseCall` | packages/core/src/index.js:361-363 | half-close begins once, and only from writable |
| `StreamObject.WebRtcStream.CloseDrained` | packages/core/src/index.js:364-365 | close waits for the whole chain, and stays closing when the chain failed |
| `StreamObject.WebRtcStream.EofSettled` | packages/core/src/index.js:365-367 | only an `eof` that was sent closes the writing half; the stream ends when both halves are closed |
| `StreamObject.WebRtcStream.AbortCall` | packages/core/src/index.js:370-377 | abort ends both halves, says `abort`, rejects a parked reader and finalizes |
| `StreamObject.WebRtcStream.ReceiveData` | packages/core/src/index.js:379-385 | a chunk goes to the parked reader or to the end of the queue, and is dropped when reading is over |
| `StreamObject.WebRtcStream.ReceiveControl` | packages/core/src/index.js:387-413 | what each control does to the state and which controls it answers |
| `StreamObject.WebRtcStream.ReceiveText` | packages/core/src/index.js:387-413 | the same for the text as it arrives: what every text means, numbers behind `ack:` and text without a meaning included |
| `StreamObject.WebRtcStream.PeerDisconnected` | packages/core/src/index.js:415-429 | a lost peer arms the grace timer once; a grace of zero ends the stream at once |
| `StreamObject.WebRtcStream.PeerReconnected` | packages/core/src/index.js:431-443 | a returning peer resets the credit, wakes who is parked and says `resume` and `flow:1`; its result says whether the stream still lives |
| `StreamObject.WebRtcStream.PeerLeft` | packages/core/src/index.js:445-457 | a peer that left closes the stream, ends a parked reader and fails the running operation |
| `StreamObject.WebRtcStream.Next` | packages/core/src/index.js:462-468 | the acknowledgement of the last chunk is sent before the queue is looked at |
| `StreamObject.WebRtcStream.ReaderStep` | packages/core/src/index.js:468-477 | what the reader does when it continues: take a chunk, see the end, or park |
| `StreamObject.WebRtcStream.Return` | packages/core/src/index.js:478-484 | leaving the loop early still acknowledges the last chunk |
| `StreamObject.WebRtcStream.Finalize` | packages/core/src/index.js:554-562 | finalization runs once, stops the timers and fails whoever is parked |
| `StreamObject.ReachedIsSafe` | packages/core/src/index.js:333-562 | every method leaves its object in a state that a run reaches, so what every run keeps holds of any object that methods have changed |
| `ControlText.ParsePrint` | packages/core/src/index.js:387-413 | every control a stream says is what its peer hears |
| `ControlText.AckIsRead` | packages/core/src/index.js:404-409 | an acknowledgement is read as its number whatever follows the digits, and means nothing above the largest safe integer |
| `ControlText.ControlTravels` | packages/core/src/native-webrtc.js:14-44 | printed, encoded, framed, unframed, decoded and parsed, a control is itself again |
| `StreamRuns.EveryRun` | packages/core/src/index.js:284-563 | in every reachable state, for any sequence of regions: no lost wake-up, the lifecycle facts, chunks handed over in call order and once each, and at most max(window, longest chunk) unacknowledged |
| `StreamRuns.StepSafe` | packages/core/src/index.js:333-562 | every single region keeps those facts, whatever state it starts in |
| `StreamRuns.StepForward` | packages/core/src/index.js:333-562 | no region reopens a half, forgets an accepted, handed over or yielded chunk, or accepts one after close |
| `StreamRuns.EofComesLast` | packages/core/src/index.js:361-368 | when `eof` is emitted the transport has every accepted chunk, and no later run accepts or hands over another |
| `StreamRuns.ClosedIsForever` | packages/core/src/index.js:536-562 | a closed stream stays closed and has run onFinalize exactly once |
| `StreamRuns.OpenChainBreaks` | packages/core/src/index.js:333-355 | while the stream is open its send chain fails in exactly one way: a wait for the peer was woken and the peer is lost again before it continues |
| `StreamRuns.AwaitingPeerIsReached` | packages/core/src/index.js:503-507 | the state of a sender parked for its peer is reached by a run |
| `StreamRuns.QuickLossBreaksChain` | packages/core/src/index.js:507-511 | a run in which a quick second loss breaks the chain of a stream that stays open |
| `StreamEnd.ReadingCloses` | packages/core/src/index.js:536-545 | reading is closed by an eof, an abort or the loss of the peer for good, and by nothing else |
| `StreamEnd.ClosingOutcome` | packages/core/src/index.js:536-545 | what that does to the reader: a parked one is rejected by an abort and told that the stream is done by anything else; any other goes on as it was |
| `StreamEnd.ReaderEnds` | packages/core/src/index.js:462-477 | the exact regions in which an application is told that the stream is done |
| `StreamEnd.EveryEnding` | packages/core/src/index.js:445-546 | every run: the application sees a failure exactly when an abort found it parked; a stream that is done without an eof has lost its peer, or an abort did not find the application parked |
| `StreamEnd.EndsAsIfComplete` | packages/core/src/index.js:445-546 | after every run in which something else than an eof closed reading: an application that reads on is given the rest of what arrived and told that the stream is done, unless an abort found it parked, and then it is never told so |
| `StreamClose.CloseFails` | packages/core/src/index.js:361-368 | close fails exactly when the send chain broke before it drained, or the eof was not sent |
| `StreamClose.EofIsSaid` | packages/core/src/index.js:361-368 | an eof is said in exactly one region |
| `StreamClose.FailedCloseStays` | packages/core/src/index.js:361-368 | after a failed close no run says eof or accepts a chunk, and the stream stays closing until it is closed |
| `StreamClose.FailedCloseEnds` | packages/core/src/index.js:361-377 | and only an abort or the loss of the peer closes it then, not the eof of the peer |
| `StreamClose.RefusedEofLingers` | packages/core/src/index.js:361-368 | a run: a refused eof leaves an open, connected stream closing |
| `StreamClose.BrokenChainIsReached` | packages/core/src/index.js:503-512 | a run from a sender that waits for its peer to a broken chain of an open stream with its peer back |
| `StreamClose.BrokenChainLingers` | packages/core/src/index.js:361-368 | and a close that fails there |
| `PairCredit.NoCreditLeak` | packages/core/src/index.js:333-355 | two streams, opened on any channels and bound to any others in any order, live or dead, in any interleaving: on a live channel what a side counts as unacknowledged is at most the bytes being handed over, under way, held by the peer, and in acknowledgements under way, as long as the peer is open |
| `PairCredit.DoInv` | packages/core/src/index.js:379-443 | one move of either side keeps the invariant of the pair |
| `PairCredit.StaysReconnecting` | packages/core/src/index.js:415-443 | an open stream that waits for its peer stops waiting only by a reconnect |
| `PairDelivery.EndToEnd` | packages/core/src/index.js:333-368 | in every run without loss or abort what an application is given is a prefix of what was sent, and all of it when its iterator ends |
| `PairDelivery.WindowBoundsBuffer` | packages/core/src/index.js:336-351 | in a loss-free run the true outstanding bytes, and so the receive queue, are at most max(window, longest chunk) plus what was sent before `flow:1` was processed |
| `PairDelivery.UnmeteredOnlyBeforeFlow` | packages/core/src/index.js:398-399 | bytes go uncounted only while flow control is off |
| `PairDelivery.DetachedByRefusal` | packages/core/src/index.js:345-352 | a side bound to a live channel comes to count as disconnected exactly when the transport refuses a chunk |
| `PairDelivery.HandingByteIsReached` | packages/core/src/index.js:333-345 | the state with one chunk at the transport is reached by a run |
| `PairDelivery.RefusalDetachesLiveChannel` | packages/core/src/index.js:347-352 | from there one refusal leaves the stream reconnecting over a channel that is still live |
| `PairBuffer.BufferWithLosses` | packages/core/src/index.js:400-402 | in every run, whatever is lost and replaced, the bytes handed over and not settled, and so the receive queue, exceed max(window, longest chunk) at most by what was sent before `flow:1` and by what the sender forgot: at most that maximum for each reconnect and each `resume`; when nothing was forgotten the limit holds |
| `PairOverflow.OverflowIsReached` | packages/core/src/index.js:431-443 | a run that attains this bound: a limit of one byte, one byte forgotten, and two bytes in the queue |
| `PairComplete.EofOnFirstChannel` | packages/core/src/index.js:361-390 | in every run: once an eof has arrived on the channel on which both streams were opened, while it lives, the application is told that the stream is done only with all that was sent, whatever is lost, aborted or replaced later |
| `PairOrder.AtMostOnce` | packages/core/src/index.js:379-390 | in every run, whatever is lost and in whatever order the two sides bind the channels, each chunk an application is given is one that was sent, whole, and none is given twice |
| `PairOrder.InOrderExactly` | packages/core/src/index.js:379-390 | in every run the chunks arrive in the order in which they were sent exactly when they arrive on the channels in the order in which the sender was bound to these |
| `PairOrder.InOrderAtMostOnce` | packages/core/src/index.js:379-390 | so in every run in which the receiver binds the channels in the order of the sender an application is given a subsequence of what the other sent |
| `PairCrossing.OrderIsLost` | packages/core/src/native-endpoint.js:116-123 | a run in which nothing is lost, the eof arrives, and the application is given the two chunks in the other order: the sides were bound to the two channels in opposite orders |
| `PairLoss.EofIsCompleteExactly` | packages/core/src/index.js:361-390 | in every run: once an eof has arrived, on whatever channel, the application that is told that the stream is done has all chunks exactly when none was lost or left behind on another channel, and has them in order exactly when they also arrived on the channels in the order of the sender |
| `PairCutShort.LossCutsShort` | packages/core/src/index.js:445-457 | a run in which the grace of the peer is over and the parked application is told that the stream is done, without the chunk that was sent |
| `PairCutShort.AbortCutsShort` | packages/core/src/index.js:370-377 | a run in which an abort arrives before the application asks, which is then told that the stream is done |
| `PairCutShort.ReplacedChannelCutsShort` | packages/core/src/index.js:431-443 | a run without a failure: the chunk is lost with its channel, the eof arrives on the next one, and the application is told that the stream is done |
| `PairProgress.ParkedSenderHasCreditToCome` | packages/core/src/index.js:459-501 | in every run what a sender on a live channel is parked for is a wake-up or data under way, or held by its open peer |
| `PairRelease.ParkedSenderIsWoken` | packages/core/src/index.js:459-501 | from every reachable state with a sender parked over the live channel and an open peer: once that peer is bound to the channel, deliveries and reads alone wake the sender, unless it is stuck |
| `PairRelease.EveryScheduleWakes` | packages/core/src/index.js:459-501 | and in whatever order they are taken: every list of deliveries and reads that is longer than what there is to do wakes it |
| `PairRelease.WokenExactly` | packages/core/src/index.js:459-501 | and they can wake it exactly when it is not stuck: its peer is still read, or not yet bound, or a wake-up is under way |
| `PairWakeup.StuckForGood` | packages/core/src/index.js:478-501 | a parked sender whose peer is no longer read, with no wake-up under way, stays parked whatever is done, as long as the channel lives and both streams are open |
| `PairWakeup.StuckIsReached` | packages/core/src/index.js:478-501 | a run that reaches such a sender: the loop is left before the first byte arrives, and a window of one byte parks the second |
| `PairEnd.HowStreamsEnd` | packages/core/src/index.js:370-457 | a stream ends in one of four ways: its own abort, which says so; its peer's; the peer counting as gone; or both halves closed |
| `PairEnd.ClosedReceiverTells` | packages/core/src/index.js:370-385 | over a live channel, when the receiving stream has closed and the sending one has not, an abort is under way to the sender, or the receiver took its peer to be gone, or the sender has ended its half |
| `PairEnd.ParkedSenderHears` | packages/core/src/index.js:370-385 | so a parked sender of a closed receiver has an abort under way, or the receiver took it to be gone |
| `StreamPair.MirroredRun` | packages/core/src/index.js:284-563 | the pair is symmetric: what every run keeps of one side it keeps of the other |
| `LinkHistory.HistoryIsDisciplined` | packages/core/src/native-endpoint.js:116-123 | in every run of the pair both sides obey the discipline of the endpoints |
| `LinkHistory.HistoryIsPlayed` | packages/core/src/native-endpoint.js:180-216 | whatever two endpoints with that discipline do to their two streams, in whatever interleaving, until one is left: a run of the pair binds and loses both sides in just that way and order, whichever channels are dead |
| `WholeStack.ClientIsHeard` | src/pty.js:38-110 | hello, admission, two senders and two streams in any loss-free interleaving: what the server reads is admitted and decodes to a prefix of the frames the client put in, and to all of them when its stream has ended and the client had given out everything |
| `WholeStack.ServerIsHeard` | src/pty.js:130-200 | the same from the server to the client, behind the acknowledgement |
| `WholeStack.NextKeeps` | packages/core/src/authenticated-stream.js:11-42 | every step of a session keeps that each stream has accepted its admission frame and then what its sender gave out, in order |
| `PtyCodec.Decoder.Push` | packages/core/src/index.js:82-102 | a push gives out the whole frames of buffer and chunk, keeps the rest, and fails exactly on an oversized length |
| `PtyCodec.Decoder.Finish` | packages/core/src/index.js:104-106 | the end is accepted exactly when nothing is left over |
| `PtyCodec.Decoder.Reset` | packages/core/src/index.js:108-110 | reset empties the buffer |
| `PtyCodec.CutsDoNotMatter` | packages/core/src/index.js:82-102 | any two cuts of one byte stream agree on failure and, without one, on the frames and the rest, which is shorter than 5 + 1048576 bytes |
| `PtyCodec.ParseAppend` | packages/core/src/index.js:82-102 | parsing a stream in two parts is parsing the first and going on from its rest |
| `PtyCodec.DecodeEncode` | packages/core/src/index.js:639-648 | decoding encoded frames gives exactly them, with nothing left over |
| `PtyCodec.EncodeDecode` | packages/core/src/index.js:82-102 | decoding invents nothing: the frames encoded again, with the rest, are the stream, well-formed or not |
| `PtyCodec.PartialStream` | packages/core/src/index.js:82-102 | any prefix of an encoded stream decodes without failure to the first frames |
| `PtyCodec.RoundTrip` | packages/core/src/index.js:79-111 | however encoded frames are cut, the decoder gives out exactly them and accepts the end |
| `PtyCodec.ResizeRoundTrip` | packages/core/src/index.js:64-77 | a resize frame carries the normalized dimensions to the other end |
| `PtyCodec.DecodeFrames` | src/pty.js:38-44 | the generator gives out the frames of every push before the failing one, and accepts exactly the streams that are whole frames |
| `SessionAuth.FrameExact` | packages/core/src/session-auth.js:86-116 | a frame decodes to given fields exactly when it is their encoding, over all safe timestamps |
| `SessionAuth.TranscriptInjective` | packages/core/src/session-auth.js:124-133 | the transcript determines role, PeerId, service, timestamp and nonces, for PeerIds without a zero byte |
| `SessionAuth.HandshakeCompletes` | packages/core/src/session-auth.js:25-84 | one unexpired token and clocks within 120 seconds: both sides accept and agree on timestamp and nonces |
| `SessionAuth.HelloAccepted` | packages/core/src/session-auth.js:40-56 | a hello is accepted exactly when it is the authentic frame, the token is usable and the clock is within 120 seconds |
| `SessionAuth.AckAnswersHello` | packages/core/src/session-auth.js:58-84 | without a collision of the code, an acknowledgement is accepted exactly when it answers this hello under the same token |
| `SessionAuth.ConstantTimeEqual` | packages/core/src/session-auth.js:155-165 | the comparison that runs over every byte is equality of byte strings, lengths included |
| `AuthenticatedStream.ConsumePrefix` | packages/core/src/authenticated-stream.js:44-71 | exactly the first bytes are taken for every cut, empty chunks included; prefix, remainder and what the source still holds are the original stream; which error comes when |
| `AuthenticatedStream.AdmittedStream.Iterate` | packages/core/src/authenticated-stream.js:100-103 | an admitted stream can be iterated once, and then starts with the remainder |
| `AuthenticatedStream.AdmittedStream.Next` | packages/core/src/authenticated-stream.js:105-112 | each chunk given out is the front of what was unread, and the end comes only when nothing is |
| `AuthenticatedStream.ReadToEnd` | packages/core/src/authenticated-stream.js:73-125 | all chunks together are exactly the bytes behind the admission frame |
| `AuthenticatedStream.AuthenticateServer` | packages/core/src/authenticated-stream.js:28-42 | the server admits exactly the streams that begin with an acceptable hello, answers only those, leaves the application every later byte, and aborts the stream exactly when it does not admit it; an answer that was taken but not drained counts as sent |
| `AuthenticatedStream.AuthenticateClient` | packages/core/src/authenticated-stream.js:11-26 | the client sends its hello first, admits exactly the streams that begin with an acceptable acknowledgement, leaves the application every later byte, and aborts the stream on every failure after the hello was made; a hello that was taken but not drained counts as sent |
| `AuthenticatedStream.MutualAdmission` | packages/core/src/authenticated-stream.js:11-42 | with one token each application receives exactly the application bytes of the other |
| `PtySender.StreamSender.Send` | src/pty.js:79-91 | a payload is refused after a failure, else counted and queued, and the producer paused at the high mark |
| `PtySender.StreamSender.Start` | src/pty.js:85-91 | the next operation gives its payload to the stream, or settles at once after a failure |
| `PtySender.StreamSender.Drained` | src/pty.js:85-91 | the stream has taken the payload or failed with it |
| `PtySender.StreamSender.Count` | src/pty.js:92-95 | an operation that is over gives its bytes back whatever its outcome, and resumes the producer at the low mark |
| `PtySender.StreamSender.Record` | src/pty.js:96-98 | only then is its failure recorded, and the next operation may begin |
| `PtySender.EveryRunBalanced` | src/pty.js:59-109 | in every run the count is the bytes of unfinished payloads, pause and resume alternate, not paused means below the high mark and paused above the low one, sent payloads are a prefix of accepted ones, and a drained sender counts nothing and runs |
| `WorkerCredit.OutputCredit.TryPost` | web/app/p2p.worker.ts:472-484 | a chunk is parked exactly when something is unacknowledged and the chunk would pass the high mark; else it is counted and posted |
| `WorkerCredit.OutputCredit.AcknowledgeOutput` | web/app/p2p.worker.ts:496-502 | an acknowledgement lowers the count, not below zero, and wakes the loop at the low mark |
| `WorkerCredit.OutputCredit.ResetOutputCredit` | web/app/p2p.worker.ts:504-507 | a reset forgets the count and wakes the loop |
| `WorkerCredit.CounterIsExact` | web/app/p2p.worker.ts:472-502 | until the page stops, the counter is exactly the bytes posted and not yet acknowledged at the Worker, and what waits in the page is at most max(512 KiB, longest chunk) |
| `WorkerCredit.EveryAckIsOwed` | web/app/p2p.worker.ts:496-502 | an acknowledgement never exceeds the count, in any run: the clamp at zero never acts |
| `WorkerCredit.RenderedInOrder` | web/app/p2p-client.ts:145-161 | what the page renders is the front of what the stream yielded, with nothing lost in between |
| `WorkerCredit.Unparks` | web/app/p2p.worker.ts:476-501 | from every reachable state with a parked loop, delivering what is under way wakes it, without new data, stop or reset |
| `WorkerCredit.EveryDeliveryUnparks` | web/app/p2p.worker.ts:476-501 | and in whatever order messages are delivered: more deliveries than there are pending wake the loop |
| `WorkerCredit.QuietMeansRunning` | web/app/p2p.worker.ts:472-502 | when everything is delivered and acknowledged the count is zero and the loop is not parked |
| `Forwarding.ByteReader.Read` | src/forwarding.js:24-38 | a read gives the next bytes and leaves the rest, whatever the cuts, and fails exactly when the stream is too short |
| `Forwarding.ByteReader.ReadCString` | src/forwarding.js:40-48 | a string is read to its zero byte, within the limit, and given out as the text its bytes decode to |
| `Forwarding.ByteReader.Remaining` | src/forwarding.js:50-60 | exactly the bytes not yet read are given to the connection |
| `Forwarding.NegotiateSocks` | src/forwarding.js:142-151 | result, replies and unread bytes depend on the bytes of the client alone, not on the cuts |
| `Forwarding.NegotiateSocks5` | src/forwarding.js:79-117 | the SOCKS5 negotiation, its refusals and replies, per sections 3 to 6 of RFC 1928; a name becomes the text it decodes to |
| `Forwarding.NegotiateSocks4` | src/forwarding.js:119-140 | the SOCKS4 and SOCKS4a negotiation, its refusals and its two replies; a name becomes the text it decodes to |
| `Forwarding.ServeSocks` | src/forwarding.js:171-185 | whoever connects is given every byte behind the request and no other |
| `Forwarding.Socks5RoundTrip` | src/forwarding.js:79-117 | a printed SOCKS5 CONNECT is read back with its port and the text of its host, for IPv4, names and IPv6, and later bytes are left unread |
| `Forwarding.Socks4RoundTrip` | src/forwarding.js:119-140 | the same for SOCKS4 and SOCKS4a |
| `Forwarding.StringReadBack` | src/forwarding.js:40-48 | the text of a zero-ended string is read back below the limit, and the string is refused at it |
| `Forwarding.LaterBytesUntouched` | src/forwarding.js:142-151 | a negotiation that has ended has not looked at later bytes |
| `Forwarding.NameComesBack` | src/forwarding.js:98-100 | a SOCKS5 name reaches the connector unchanged exactly when it is well-formed UTF-8 without a byte order mark in front |
| `Forwarding.Socks4aNameComesBack` | src/forwarding.js:40-48 | the same for the name of a SOCKS4a request |
| `Forwarding.NamesAreConfused` | src/forwarding.js:98-100 | two requests for different names that reach the connector as one, and a name that loses its front |
| `Forwarding.HostTextInjective` | src/forwarding.js:67-102 | addresses of one kind have the same host text exactly when they are the same; of names, those that come back |
| `Utf8.DecodeEncode` | src/forwarding.js:98-100 | every text is read back from its UTF-8 encoding by the decoder that replaces malformed sequences |
| `Utf8.ComesBack` | src/forwarding.js:98-100 | bytes decoded and encoded again are unchanged exactly when they are well-formed without a byte order mark in front |
| `Utf8.TextComesBack` | src/forwarding.js:98-100 | a text survives exactly when it does not begin with the byte order mark |
| `NativePeer.FrameExact` | packages/core/src/native-webrtc.js:14-36 | a frame decodes to a kind and a payload exactly when it is their encoding |
| `NativePeer.CandidateQueue.SignalCandidate` | packages/core/src/native-webrtc.js:155-167 | a candidate waits for the remote description, or is applied at once after it |
| `NativePeer.CandidateQueue.DescriptionSettles` | packages/core/src/native-webrtc.js:176-177 | an accepted description is there from then on; a rejected one closes the peer |
| `NativePeer.CandidateQueue.StartFlush` | packages/core/src/native-webrtc.js:236-240 | a flush takes the whole queue |
| `NativePeer.CandidateQueue.FlushStep` | packages/core/src/native-webrtc.js:236-240 | a flush applies its candidates in order, one after another |
| `NativePeer.CandidatesAppliedOnce` | packages/core/src/native-webrtc.js:155-183 | in every run no candidate is applied twice or before the description, and once every flush has run none of an open peer is stranded |
| `CandidatePath.CandidateIsAppliedOnce` | packages/core/src/native-endpoint.js:75-84 | every run of the listener together with its peers: a candidate that arrived is applied to one connection at most, and to that at most once |
| `CandidatePath.NoneIsLost` | packages/core/src/native-endpoint.js:164-173 | once an open connection has its description and every flush has run, it has been given exactly the candidates that the listener passed to its peer |
| `CandidateCache.QueueKeeps` | packages/core/src/native-endpoint.js:50-65 | queueing keeps at most 128 groups, at most 32 messages in each, and one group for each key |
| `CandidateCache.QueueMessages` | packages/core/src/native-endpoint.js:50-65 | a group is the first 32 messages of its key since it was begun, in order; other groups stay, except the oldest when a new group finds the cache full |
| `CandidateCache.ForgetMessages` | packages/core/src/native-endpoint.js:42-48 | forgetting a key empties its group and no other |
| `StreamLinks.NothingAfterLoss` | packages/core/src/native-endpoint.js:116-123 | once a peer is lost, nothing it still sends reaches the stream, and it is never bound again |
| `Listener.NativeWebRtcListener.ReceiveOffer` | packages/core/src/native-endpoint.js:93-105 | an offer becomes an attempt unless it is known or a limit is reached; a refusal changes nothing |
| `Listener.NativeWebRtcListener.AcceptCandidate` | packages/core/src/native-endpoint.js:75-84 | a candidate goes to its attempt, is cached if the adapter trickles, or is dropped |
| `Listener.NativeWebRtcListener.AcceptBye` | packages/core/src/native-endpoint.js:85-90 | a bye forgets the group and closes the attempt |
| `Listener.NativeWebRtcListener.FinishOffer` | packages/core/src/native-endpoint.js:170-173 | the continuation of an offer takes the cached group |
| `Listener.NativeWebRtcListener.Close` | packages/core/src/native-endpoint.js:110-123 | closing a peer forgets its attempt and group, and unbinds its stream if it was the link |
| `Listener.NativeWebRtcListener.ReceiveFrame` | packages/core/src/native-endpoint.js:135-158 | what each frame does before and after authentication |
| `Listener.NativeWebRtcListener.FinishAnswer` | packages/core/src/native-endpoint.js:136-141 | a challenge counts as answered only once the answer was sent |
| `Listener.NativeWebRtcListener.Activate` | packages/core/src/native-endpoint.js:180-216 | an authenticated peer opens a stream, is bound to the one that lost its link, or is closed when another is active |
| `Listener.NativeWebRtcListener.FinalizeStream` | packages/core/src/native-endpoint.js:204-211 | a finalized stream loses its entry |
| `ListenerRuns.ListenerIsBounded` | packages/core/src/native-endpoint.js:96-104 | in every interleaving at most 64 attempts, 4 of one remote peer, and 128 cached groups of 32 candidates |
| `ListenerRuns.OneStreamPerRemote` | packages/core/src/native-endpoint.js:180-216 | a remote peer has at most one open stream, which is its entry; a new one comes only after every earlier one is closed |
| `ListenerRuns.FramesComeFromTheLink` | packages/core/src/native-endpoint.js:151-157 | whatever a stream is handed comes from the one authenticated peer of its remote that it is bound to at that moment; its whole history of openings, losses, rebindings and frames obeys the discipline |
| `ListenerRuns.AuthenticationComesFirst` | packages/core/src/native-endpoint.js:135-151 | before a frame of a peer is handed on its challenge was answered and, after that, its AUTH_READY seen |
| `ListenerRuns.NoCandidateIsStranded` | packages/core/src/native-endpoint.js:164-173 | nothing stays cached for an attempt whose offer has been applied |
| `ListenerRuns.NextKeeps` | packages/core/src/native-endpoint.js:67-216 | every step keeps the invariant of the listener |
| `ListenerCandidates.CandidateAtMostOnce` | packages/core/src/native-endpoint.js:75-84 | in every run a candidate is passed to one peer at most and to it once, and to none while it is cached |
| `ListenerLinks.DeadLinkExactly` | packages/core/src/native-endpoint.js:142-149 | a step binds a stream to a closed connection exactly when a closed peer, whose challenge was answered, still takes an AUTH_READY from its chain and nobody else is bound |
| `ListenerLinks.PromptRunsStayLive` | packages/core/src/native-endpoint.js:116-123 | in runs without such a step every bound connection is open |
| `ListenerLinks.LateReadyIsReached` | packages/core/src/native-webrtc.js:259-270 | a run from the start that binds a closed connection |
| `ListenerCrossing.OlderComesLater` | packages/core/src/native-endpoint.js:180-216 | a run from the start in which a stream is opened on the later of two connections of a remote, is handed a chunk, loses it, and is then bound to the earlier one and handed a chunk |
| `ListenerCrossing.CrossedAtTheListener` | packages/core/src/native-endpoint.js:180-216 | a run of the listener and a run of the pair that do the same to the stream, in which it has received the two chunks of the client in the other order |
| `Client.NativeWebRtcClient.Start` | packages/core/src/native-endpoint.js:336-340 | an attempt begins only when nothing is claimed, nothing is closed and the session has none |
| `Client.NativeWebRtcClient.FinishVerify` | packages/core/src/native-endpoint.js:298-306 | a peer is claimed only with a verified response, an open connection and no other claimed |
| `Client.NativeWebRtcClient.FinishReady` | packages/core/src/native-endpoint.js:307-333 | after AUTH_READY the stream is created or bound again and every other attempt closed; a failure closes the peer |
| `Client.NativeWebRtcClient.CancelOthers` | packages/core/src/native-endpoint.js:330-333 | the loop closes every other attempt and leaves the winner alone |
| `Client.NativeWebRtcClient.ReceiveFrame` | packages/core/src/native-endpoint.js:378-393 | what each frame does before and after authentication |
| `Client.NativeWebRtcClient.Close` | packages/core/src/native-endpoint.js:394-400 | closing a peer forgets its attempt and, if it was authenticated, unbinds the stream |
| `Client.NativeWebRtcClient.LoseActivePeer` | packages/core/src/native-endpoint.js:290-296 | a lost link is cleared and the stream told, unless the connection or the stream is over |
| `Client.NativeWebRtcClient.FinishClose` | packages/core/src/native-endpoint.js:442-446 | close ends every attempt, clears the link and leaves the stream |
| `ClientRuns.OneAttemptPerSession` | packages/core/src/native-endpoint.js:336-340 | no signaling session ever has two attempts with open peers |
| `ClientRuns.ClaimClosesOthers` | packages/core/src/native-endpoint.js:330-333 | once AUTH_READY is sent every other attempt is closed |
| `ClientRuns.FramesComeFromTheClaimed` | packages/core/src/native-endpoint.js:386-392 | whatever the stream is handed comes from the one verified peer it is bound to at that moment |
| `ClientRuns.VerificationComesFirst` | packages/core/src/native-endpoint.js:298-307 | before a frame of a peer is handed on its response was verified |
| `ClientRuns.StreamIsNeverReplaced` | packages/core/src/native-endpoint.js:309-328 | the stream is created once; every later reconnect binds that same stream |
| `ClientRuns.NextKeeps` | packages/core/src/native-endpoint.js:290-446 | every step keeps the invariant of the client |
| `ClientLinks.StrandedExactly` | packages/core/src/native-endpoint.js:298-309 | the client comes to keep a claimed peer that is gone exactly when it claims a closed one, or the claimed one is closed or fails to send AUTH_READY before the claim is complete |
| `ClientLinks.SmoothRunsStayLive` | packages/core/src/native-endpoint.js:290-296 | in runs without such a step whoever is claimed is open |
| `ClientLinks.StrandedRuns` | packages/core/src/native-endpoint.js:336-339 | such a claim stays, and no attempt begins, until the connection or its stream is closed |
| `ClientLinks.FailedReadyStrands` | packages/core/src/native-endpoint.js:306-307 | a run from the start that strands the client |
| `Pairing.Base64UrlRoundTrip` | packages/core/src/pairing.js:254-272 | every byte string survives its text form, per section 5 of RFC 4648 without padding |
| `Pairing.DecodedText` | packages/core/src/pairing.js:261-272 | a text decodes exactly when, trimmed, it is letters only and not one letter past a group, and to which bytes |
| `Pairing.Base64UrlCanonical` | packages/core/src/pairing.js:254-272 | a decodable text is the text form of its bytes exactly when it drops no set bit |
| `Pairing.TextsAreNotUnique` | packages/core/src/pairing.js:261-272 | texts of two letters that differ in dropped bits decode to the same byte |
| `Pairing.BaseEpoch` | packages/core/src/pairing.js:184 | the epoch is the number of whole intervals |
| `Pairing.WindowsMeet` | packages/core/src/pairing.js:170-195 | two parties with the default offsets share a window exactly when their epochs are at most two apart |
| `Pairing.CloseClocksMeet` | packages/core/src/pairing.js:170-195 | clocks that differ by at most two intervals always share a window |
| `Pairing.PublishedRecordIsFound` | src/discovery.js:45-57 | a record up to 360 seconds old is found with clocks up to 240 seconds apart |

## Left out

- libp2p nodes, DHT, PubSub, dialing, delegated routing and relays: calls into libraries.
- Signaling transports: signals are events that may come in any order and number.
- ICE, SDP and `RTCPeerConnection`: reduced to the description being set, and the connection being closed.
- Timers and clocks: an expiry is an event that may come at any time; a deadline is a number of completed reads (`patience`).
- HMAC and key derivation: one abstract function `mac` of secret and transcript; `AckAnswersHello` says where it assumes that two messages have different codes, and signatures and the verification of a WebRTC response are an event with an outcome.
- Callbacks of the application (`onStream`, `onFinalize`, logging): they are assumed not to call back into the object in the same region.
- A control that is refused by a live channel: a control is given to the link at once, may wait there for the buffer of the transport while later frames overtake it, and is lost only with its channel.
- More than one iterator on a stream at a time: the credit of the source counts one consumer.
- PairDelivery.EndToEnd: covers two given streams; a peer that opens a new stream after its old one closed is the subject of the endpoint model.
- WholeStack.ClientIsHeard: covers runs without loss and abort; a session that loses its channel is the subject of the pair and endpoint models.
- WholeStack.ServerIsHeard: the same.
- PairRelease.ParkedSenderIsWoken: stated for the first side, as are the results of `PairWakeup`, `PairEnd`, `PairBuffer`, `PairOrder`, `PairComplete` and `PairLoss`; `StreamPair.MirroredRun` carries them over.
- PairEnd.ClosedReceiverTells: where the receiver took its peer to be gone, the endpoint closes or has lost the channel, which is an event of the pair.
- Listener.NativeWebRtcListener.ReceiveOffer: a refusal for a limit is an error value; the log line it causes is not modelled.
- Listener.NativeWebRtcListener.FinalizeStream: the peer of a finalized stream is closed a while later; here that close is an event which may come at any later time, or never.
- The last part of the listener's `close()`: its loops close attempts, expire groups and finalize streams one by one, which are events of the model, so every order of them is covered.
- The client's retry timer and overall timer: an attempt may begin at any time that the guards allow, which includes every schedule of rounds.
- WorkerCredit.OutputCredit.AcknowledgeOutput: takes an integer; the test for unsafe integers cannot fail for the lengths that the page sends.
- Pairing.BaseEpoch: takes whole milliseconds and divides exactly; the source divides twice in floating point.
- Pairing.WindowsMeet: compares epochs; the identifier derived from an epoch is a keyed hash of it.
- Pairing tokens, route records, CBOR, multiaddrs and PeerIds: external codecs and single-branch checks.
- `interactiveBytes`, `node-pty`, TCP sockets, the command line, the React pages and the Service Worker: input and output.
- The printed IPv6 host is compared as text; resolving names and connecting are not modelled.
