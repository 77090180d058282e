/**
 * WebRtcStream: the reliable session layer over a replaceable data channel.
 *
 * `StreamState` is the value of one stream between two synchronous regions of the
 * program; its member functions are the regions themselves, cut at every `await`.
 *
 * The send chain is a chain of promises, so at most one `send` operation is running:
 * `chain` is the place where that operation is suspended, and the lists of parked
 * flow and peer waiters hold at most that one operation. Controls that a region hands
 * to `sendControl` are its result.
 */
module StreamModel {
  import opened Bytes

  const RECONNECT_GRACE_MS: nat := 120_000

  /** `Ack(n)` stands for the text `ack:n`; `Unknown` for any text with no meaning. */
  datatype Control = Eof | Abort | Flow | Resume | Ack(count: int) | Ping | Pong | Unknown

  datatype Status = Open | Closed

  datatype WriteStatus = Writable | Closing | Shut

  datatype Connection = Connected | Reconnecting | Disconnected

  /** Where the running operation of the send chain is suspended. */
  datatype Chain =
    | Idle                                  // no operation is running
    | AtPeer(chunk: Chunk, again: bool)     // about to test the peer, for the second time if again
    | PeerParked(chunk: Chunk, again: bool) // waiting for the peer to reconnect
    | PeerWoken(chunk: Chunk, again: bool)  // woken, not yet continued
    | AtFlow(chunk: Chunk)                  // about to test the credit window
    | FlowParked(chunk: Chunk)              // waiting for credit
    | AtSend(chunk: Chunk)                  // about to hand the chunk over
    | Sending(chunk: Chunk)                 // sendData has been called and has not settled
    | Broken                                // an operation failed; the rest never runs
  {
    function WakeFlow(): Chain {
      if FlowParked? then AtFlow(chunk) else this
    }

    function WakePeer(): Chain {
      if PeerParked? then PeerWoken(chunk, again) else this
    }

    function RejectFlow(): Chain {
      if FlowParked? then Broken else this
    }

    function RejectPeer(): Chain {
      if PeerParked? then Broken else this
    }
  }

  /** The application's loop over the stream, one `next` at a time. */
  datatype Reader =
    | Resting(consumed: nat)  // holding a chunk of that many bytes, or none yet
    | Acking                  // inside next, the acknowledgement has been sent
    | Waiting                 // parked
    | Resolved(chunk: Chunk)  // given a chunk, not yet continued
    | Ended                   // told that the stream is done
    | Rejected                // told that the stream failed
    | Returned                // left the loop early

  datatype Closer = NotClosing | Draining | SendingEof | CloseDone | CloseFailed

  /** A state and the controls the region handed to sendControl. */
  datatype Effect = Effect(s: StreamState, out: seq<Control>)

  /**
   * The last five fields are history: the chunks accepted by send, those the transport
   * took, those the application was given, how often onFinalize ran, and how many bytes
   * were handed over while flow control was still off.
   */
  datatype StreamState = StreamState(
    window: nat,
    status: Status,
    writeStatus: WriteStatus,
    connection: Connection,
    flowEnabled: bool,
    inFlight: int,
    chain: Chain,
    queue: seq<Chunk>,
    closer: Closer,
    items: seq<Chunk>,
    reader: Reader,
    readClosed: bool,
    finalized: bool,
    timer: bool,
    greeted: bool,
    accepted: seq<Chunk>,
    handed: seq<Chunk>,
    yielded: seq<Chunk>,
    finalizeRuns: nat,
    uncounted: nat)
  {
    // ----- waking the parked operation -----

    function WakeFlowWaiters(failed: bool): StreamState {
      this.(chain := if failed then chain.RejectFlow() else chain.WakeFlow())
    }

    function WakePeerWaiters(failed: bool): StreamState {
      this.(chain := if failed then chain.RejectPeer() else chain.WakePeer())
    }

    // ----- closing -----

    function Finalize(): StreamState {
      if finalized then this
      else
        this.(finalized := true, timer := false, finalizeRuns := finalizeRuns + 1)
        .WakeFlowWaiters(true).WakePeerWaiters(true)
    }

    function EndRead(): StreamState {
      this.(readClosed := true, reader := if !readClosed && reader.Waiting? then Ended else reader)
    }

    function Fail(): StreamState {
      this.(readClosed := true, reader := if reader.Waiting? then Rejected else reader)
    }

    function MaybeFinalize(): StreamState {
      if readClosed && writeStatus.Shut? then this.(status := Closed).Finalize() else this
    }

    function AbortCall(): Effect {
      if status.Closed? then Effect(this, [])
      else Effect(this.(writeStatus := Shut, status := Closed).Fail().Finalize(), [Abort])
    }

    // ----- the peer -----

    function PeerLeft(): StreamState {
      if status.Closed? then this
      else
        this.(timer := false, connection := Disconnected, status := Closed, writeStatus := Shut)
        .EndRead().WakeFlowWaiters(true).WakePeerWaiters(true).Finalize()
    }

    function PeerDisconnected(graceMs: nat): StreamState {
      if status.Closed? || connection.Reconnecting? then this
      else if graceMs == 0 then PeerLeft()
      else this.(connection := Reconnecting, timer := true)
    }

    function PeerReconnected(): Effect {
      if status.Closed? || !connection.Reconnecting? then Effect(this, [])
      else Effect(
        this.(timer := false, connection := Connected, inFlight := 0).WakeFlowWaiters(false).WakePeerWaiters(false),
        [Resume, Flow])
    }

    function TimerFires(): StreamState {
      if timer then PeerLeft() else this
    }

    // ----- receiving -----

    function ReceiveData(c: Chunk): StreamState {
      if readClosed || status.Closed? then this
      else if reader.Waiting? then this.(reader := Resolved(c))
      else this.(items := items + [c])
    }

    function RemoteAbort(): StreamState {
      this.(status := Closed, writeStatus := Shut).Fail().WakeFlowWaiters(true).Finalize()
    }

    function Acknowledged(n: int): StreamState {
      if n <= 0 then this
      else this.(inFlight := if inFlight - n < 0 then 0 else inFlight - n).WakeFlowWaiters(false)
    }

    function ReceiveControl(control: Control): Effect {
      match control
      case Eof => Effect(EndRead().MaybeFinalize(), [])
      case Abort => Effect(RemoteAbort(), [])
      case Flow => Effect(this.(flowEnabled := true), [])
      case Resume => Effect(this.(inFlight := 0).WakeFlowWaiters(false), [Flow])
      case Ack(n) => Effect(Acknowledged(n), [])
      case Ping => Effect(this, [Pong])
      case Pong => Effect(this, [])
      case Unknown => Effect(this, [])
    }

    // ----- sending -----

    /** The guard of the wait for credit. */
    predicate Blocked(length: nat) {
      flowEnabled && status.Open? && !writeStatus.Shut? && inFlight > 0 && inFlight + length > window
    }

    function Send(c: Chunk): Result<StreamState, string> {
      if !writeStatus.Writable? then Err("WebRTC stream is not writable")
      else Ok(this.(queue := queue + [c], accepted := accepted + [c]))
    }

    /** The test of the peer has passed. */
    function PeerReady(c: Chunk, again: bool): StreamState {
      this.(chain := if again then AtSend(c) else AtFlow(c))
    }

    function WaitForPeer(c: Chunk, again: bool): StreamState {
      if connection.Connected? then PeerReady(c, again)
      else if status.Closed? || connection.Disconnected? then this.(chain := Broken)
      else this.(chain := PeerParked(c, again))
    }

    /** What a woken wait for the peer tests. */
    function PeerResumed(c: Chunk, again: bool): StreamState {
      if status.Closed? || !connection.Connected? then this.(chain := Broken) else PeerReady(c, again)
    }

    function WaitForFlowWindow(c: Chunk): StreamState {
      if Blocked(|c|) then this.(chain := FlowParked(c))
      else if status.Closed? || writeStatus.Shut? then this.(chain := Broken)
      else this.(chain := AtPeer(c, true))
    }

    function HandOver(c: Chunk): StreamState {
      if writeStatus.Shut? then this.(chain := Broken)
      else if flowEnabled then this.(chain := Sending(c), inFlight := inFlight + |c|)
      else this.(chain := Sending(c), uncounted := uncounted + |c|)
    }

    function ChainStep(): StreamState {
      match chain
      case Idle =>
        if queue == [] then this else this.(chain := AtPeer(queue[0], false), queue := queue[1..])
      case AtPeer(c, again) => WaitForPeer(c, again)
      case PeerWoken(c, again) => PeerResumed(c, again)
      case AtFlow(c) => WaitForFlowWindow(c)
      case AtSend(c) => HandOver(c)
      case _ => this
    }

    function SendOk(): StreamState {
      if !chain.Sending? then this else this.(chain := Idle, handed := handed + [chain.chunk])
    }

    /** The credit given back when the transport refuses a chunk. */
    function Refunded(): int {
      if flowEnabled && chain.Sending? then inFlight - |chain.chunk| else inFlight
    }

    function SendFailed(): StreamState {
      if !chain.Sending? then this
      else if status.Closed? || writeStatus.Shut? then this.(inFlight := Refunded(), chain := Broken)
      else this.(inFlight := Refunded(), chain := AtPeer(chain.chunk, false)).PeerDisconnected(RECONNECT_GRACE_MS)
    }

    function CloseCall(): StreamState {
      if !writeStatus.Writable? then this else this.(writeStatus := Closing, closer := Draining)
    }

    /** Continue close once the send chain has settled. */
    function CloseDrained(): StreamState {
      if !closer.Draining? then this
      else if chain.Broken? then this.(closer := CloseFailed)
      else if chain.Idle? && queue == [] then this.(closer := SendingEof)
      else this
    }

    function EofSettled(ok: bool): Effect {
      if !closer.SendingEof? then Effect(this, [])
      else if ok then Effect(this.(closer := CloseDone, writeStatus := Shut).MaybeFinalize(), [Eof])
      else Effect(this.(closer := CloseFailed), [])
    }

    // ----- reading -----

    /** The part of next that follows the acknowledgement. */
    function Pull(): StreamState {
      if items != [] then this.(items := items[1..], reader := Resting(|items[0]|), yielded := yielded + [items[0]])
      else if readClosed then this.(reader := Ended)
      else this.(reader := Waiting)
    }

    function Next(): Effect {
      if !reader.Resting? then Effect(this, [])
      else if reader.consumed > 0 then Effect(this.(reader := Acking), [Ack(reader.consumed)])
      else Effect(Pull(), [])
    }

    function ReaderStep(): StreamState {
      match reader
      case Acking => Pull()
      case Resolved(c) => this.(reader := Resting(|c|), yielded := yielded + [c])
      case _ => this
    }

    function Return(): Effect {
      if !reader.Resting? then Effect(this, [])
      else Effect(this.(reader := Returned), if reader.consumed > 0 then [Ack(reader.consumed)] else [])
    }

    // ----- timers of the constructor -----

    function Greet(): Effect {
      if greeted then Effect(this, [])
      else Effect(this.(greeted := true), if status.Open? then [Flow] else [])
    }

    function KeepAlive(): Effect {
      Effect(this, if status.Open? then [Ping] else [])
    }
  }

  function NewStream(window: nat): StreamState {
    StreamState(window, Open, Writable, Connected, false, 0, Idle, [], NotClosing, [], Resting(0),
                false, false, false, false, [], [], [], 0, 0)
  }
}
