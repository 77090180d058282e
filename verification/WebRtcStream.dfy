/**
 * The mutable WebRtcStream. Each method moves the state as the region of the same name does,
 * so whatever is called, in whatever order, the state stays one that a run reaches, and has
 * all that every run keeps.
 */
module StreamObject {
  import opened Bytes
  import opened StreamModel
  import opened StreamRuns
  import ControlText
  import U = Utf8

  ghost predicate Reached(s: StreamState) {
    exists ops: seq<Op> :: Exec(NewStream(s.window), ops) == s
  }

  lemma NewIsReached(window: nat)
    ensures Reached(NewStream(window))
  {
    assert Exec(NewStream(window), []) == NewStream(window);
  }

  lemma {:induction false} ExecSnoc(s: StreamState, ops: seq<Op>, op: Op)
    ensures Exec(s, ops + [op]) == Apply(Exec(s, ops), op).s
    decreases |ops|
  {
    if ops == [] {
      assert [] + [op] == [op] && [op][1..] == [];
    } else {
      ExecSnoc(Apply(s, ops[0]).s, ops[1..], op);
      assert (ops + [op])[1..] == ops[1..] + [op];
    }
  }

  /** What every run keeps is a fact about any state that is reached. */
  lemma ReachedIsSafe(s: StreamState)
    requires Reached(s)
    ensures Safe(s)
  {
    var ops: seq<Op> :| Exec(NewStream(s.window), ops) == s;
    EveryRun(s.window, ops);
  }

  lemma StepKeeps(s: StreamState, op: Op)
    ensures Reached(s) ==> Reached(Apply(s, op).s)
  {
    if Reached(s) {
      var ops: seq<Op> :| Exec(NewStream(s.window), ops) == s;
      ExecSnoc(NewStream(s.window), ops, op);
      EveryRun(s.window, ops + [op]);
      assert Exec(NewStream(Apply(s, op).s.window), ops + [op]) == Apply(s, op).s;
    }
  }

  /** The mutable object. */
  class WebRtcStream {
    var status: Status
    var writeStatus: WriteStatus
    var connection: Connection
    const window: nat
    var flowEnabled: bool
    var inFlight: int
    var chain: Chain
    var queue: seq<Chunk>
    var closer: Closer
    var items: seq<Chunk>
    var reader: Reader
    var readClosed: bool
    var finalized: bool
    var timer: bool
    var greeted: bool
    ghost var accepted: seq<Chunk>
    ghost var handed: seq<Chunk>
    ghost var yielded: seq<Chunk>
    ghost var finalizeRuns: nat
    ghost var uncounted: nat

    ghost function State(): StreamState
      reads this
    {
      StreamState(window, status, writeStatus, connection, flowEnabled, inFlight, chain, queue, closer,
                  items, reader, readClosed, finalized, timer, greeted,
                  accepted, handed, yielded, finalizeRuns, uncounted)
    }

    /** The state is one that a run of a new stream reaches. */
    ghost predicate Valid()
      reads this
    {
      Reached(State())
    }

    constructor (flowWindowBytes: nat)
      requires flowWindowBytes >= 1
      ensures State() == NewStream(flowWindowBytes) && Valid()
    {
      NewIsReached(flowWindowBytes);
      window := flowWindowBytes;
      status, writeStatus, connection := Open, Writable, Connected;
      flowEnabled, inFlight := false, 0;
      chain, queue, closer := Idle, [], NotClosing;
      items, reader, readClosed := [], Resting(0), false;
      finalized, timer, greeted := false, false, false;
      accepted, handed, yielded, finalizeRuns, uncounted := [], [], [], 0, 0;
    }

    method WakeFlowWaiters(failed: bool)
      modifies this`chain
      ensures State() == old(State()).WakeFlowWaiters(failed)
    {
      if chain.FlowParked? {
        chain := if failed then Broken else AtFlow(chain.chunk);
      }
    }

    method WakePeerWaiters(failed: bool)
      modifies this`chain
      ensures State() == old(State()).WakePeerWaiters(failed)
    {
      if chain.PeerParked? {
        chain := if failed then Broken else PeerWoken(chain.chunk, chain.again);
      }
    }

    method Finalize()
      modifies this
      ensures State() == old(State()).Finalize()
    {
      if finalized { return; }
      finalized := true;
      timer := false;
      finalizeRuns := finalizeRuns + 1;
      assert State() == old(State()).(finalized := true, timer := false, finalizeRuns := old(finalizeRuns) + 1);
      WakeFlowWaiters(true);
      WakePeerWaiters(true);
    }

    method EndRead()
      modifies this
      ensures State() == old(State()).EndRead()
    {
      if readClosed { return; }
      readClosed := true;
      if reader.Waiting? { reader := Ended; }
    }

    method Fail()
      modifies this
      ensures State() == old(State()).Fail()
    {
      readClosed := true;
      if reader.Waiting? { reader := Rejected; }
    }

    method MaybeFinalize()
      modifies this
      ensures State() == old(State()).MaybeFinalize()
    {
      if readClosed && writeStatus.Shut? {
        status := Closed;
        Finalize();
      }
    }

    method AbortRegion() returns (out: seq<Control>)
      modifies this
      ensures Effect(State(), out) == old(State()).AbortCall()
    {
      if status.Closed? { return []; }
      writeStatus := Shut;
      status := Closed;
      out := [Abort];
      Fail();
      Finalize();
    }

    method AbortCall() returns (out: seq<Control>)
      modifies this
      ensures Effect(State(), out) == old(State()).AbortCall()
      ensures old(Valid()) ==> Valid()
    {
      ghost var before := State();
      out := AbortRegion();
      StepKeeps(before, DoAbort);
    }

    method LeaveRegion()
      modifies this
      ensures State() == old(State()).PeerLeft()
    {
      if status.Closed? { return; }
      timer, connection, status, writeStatus := false, Disconnected, Closed, Shut;
      assert State() == old(State()).(timer := false, connection := Disconnected, status := Closed, writeStatus := Shut);
      EndRead();
      WakeFlowWaiters(true);
      WakePeerWaiters(true);
      Finalize();
    }

    method PeerLeft()
      modifies this
      ensures State() == old(State()).PeerLeft()
      ensures old(Valid()) ==> Valid()
    {
      ghost var before := State();
      LeaveRegion();
      StepKeeps(before, DoLeft);
    }

    method PeerDisconnected(graceMs: nat)
      modifies this
      ensures State() == old(State()).PeerDisconnected(graceMs)
      ensures old(Valid()) ==> Valid()
    {
      StepKeeps(State(), DoDisconnect(graceMs));
      if status.Closed? || connection.Reconnecting? { return; }
      if graceMs == 0 {
        PeerLeft();
        return;
      }
      connection := Reconnecting;
      timer := true;
    }

    method ReconnectRegion() returns (ok: bool, out: seq<Control>)
      modifies this
      ensures Effect(State(), out) == old(State()).PeerReconnected()
      ensures ok <==> old(status).Open?
    {
      if status.Closed? { return false, []; }
      if !connection.Reconnecting? { return true, []; }
      timer := false;
      connection := Connected;
      inFlight := 0;
      assert State() == old(State()).(timer := false, connection := Connected, inFlight := 0);
      WakeFlowWaiters(false);
      WakePeerWaiters(false);
      return true, [Resume, Flow];
    }

    method PeerReconnected() returns (ok: bool, out: seq<Control>)
      modifies this
      ensures Effect(State(), out) == old(State()).PeerReconnected()
      ensures ok <==> old(status).Open?
      ensures old(Valid()) ==> Valid()
    {
      ghost var before := State();
      ok, out := ReconnectRegion();
      StepKeeps(before, DoReconnect);
    }

    method TimerFires()
      modifies this
      ensures State() == old(State()).TimerFires()
      ensures old(Valid()) ==> Valid()
    {
      StepKeeps(State(), DoTimer);
      if timer { PeerLeft(); }
    }

    method ReceiveData(c: Chunk)
      modifies this
      ensures State() == old(State()).ReceiveData(c)
      ensures old(Valid()) ==> Valid()
    {
      StepKeeps(State(), DoData(c));
      if readClosed || status.Closed? { return; }
      if reader.Waiting? {
        reader := Resolved(c);
      } else {
        items := items + [c];
      }
    }

    method RemoteAbort()
      modifies this
      ensures State() == old(State()).RemoteAbort()
    {
      status := Closed;
      writeStatus := Shut;
      Fail();
      WakeFlowWaiters(true);
      Finalize();
    }

    method Acknowledged(n: int)
      modifies this
      ensures State() == old(State()).Acknowledged(n)
    {
      if n > 0 {
        inFlight := if inFlight - n < 0 then 0 else inFlight - n;
        WakeFlowWaiters(false);
      }
    }

    method ReceiveControl(control: Control) returns (out: seq<Control>)
      modifies this
      ensures Effect(State(), out) == old(State()).ReceiveControl(control)
      ensures old(Valid()) ==> Valid()
    {
      StepKeeps(State(), DoControl(control));
      out := [];
      match control
      case Eof =>
        EndRead();
        MaybeFinalize();
      case Abort =>
        RemoteAbort();
      case Flow =>
        flowEnabled := true;
      case Resume =>
        inFlight := 0;
        WakeFlowWaiters(false);
        out := [Flow];
      case Ack(n) =>
        Acknowledged(n);
      case Ping =>
        out := [Pong];
      case _ =>
    }

    /** A control as the text it arrives as. */
    method ReceiveText(text: U.Text) returns (out: seq<Control>)
      modifies this
      ensures Effect(State(), out) == old(State()).ReceiveControl(ControlText.Parse(text))
      ensures old(Valid()) ==> Valid()
    {
      out := ReceiveControl(ControlText.Parse(text));
    }

    method Send(c: Chunk) returns (r: Result<bool, string>)
      modifies this
      ensures match old(State()).Send(c)
              case Ok(s) => r == Ok(false) && State() == s
              case Err(e) => r == Err(e) && State() == old(State())
      ensures old(Valid()) ==> Valid()
    {
      StepKeeps(State(), DoSend(c));
      if !writeStatus.Writable? { return Err("WebRTC stream is not writable"); }
      queue := queue + [c];
      accepted := accepted + [c];
      return Ok(false);
    }

    method WaitForPeer(c: Chunk, again: bool)
      modifies this`chain
      ensures State() == old(State()).WaitForPeer(c, again)
    {
      if connection.Connected? {
        chain := if again then AtSend(c) else AtFlow(c);
      } else if status.Closed? || connection.Disconnected? {
        chain := Broken;
      } else {
        chain := PeerParked(c, again);
      }
    }

    method PeerResumed(c: Chunk, again: bool)
      modifies this`chain
      ensures State() == old(State()).PeerResumed(c, again)
    {
      if status.Closed? || !connection.Connected? {
        chain := Broken;
      } else {
        chain := if again then AtSend(c) else AtFlow(c);
      }
    }

    method WaitForFlowWindow(c: Chunk)
      modifies this`chain
      ensures State() == old(State()).WaitForFlowWindow(c)
    {
      if flowEnabled && status.Open? && !writeStatus.Shut? && inFlight > 0 && inFlight + |c| > window {
        chain := FlowParked(c);
      } else if status.Closed? || writeStatus.Shut? {
        chain := Broken;
      } else {
        chain := AtPeer(c, true);
      }
    }

    method HandOver(c: Chunk)
      modifies this
      ensures State() == old(State()).HandOver(c)
    {
      if writeStatus.Shut? {
        chain := Broken;
        return;
      }
      if flowEnabled {
        inFlight := inFlight + |c|;
      } else {
        uncounted := uncounted + |c|;
      }
      chain := Sending(c);
    }

    method ChainStep()
      modifies this
      ensures State() == old(State()).ChainStep()
      ensures old(Valid()) ==> Valid()
    {
      StepKeeps(State(), DoChain);
      match chain
      case Idle =>
        if queue != [] {
          chain, queue := AtPeer(queue[0], false), queue[1..];
        }
      case AtPeer(c, again) =>
        WaitForPeer(c, again);
      case PeerWoken(c, again) =>
        PeerResumed(c, again);
      case AtFlow(c) =>
        WaitForFlowWindow(c);
      case AtSend(c) =>
        HandOver(c);
      case _ =>
    }

    method SendOk()
      modifies this
      ensures State() == old(State()).SendOk()
      ensures old(Valid()) ==> Valid()
    {
      StepKeeps(State(), DoSendOk);
      if !chain.Sending? { return; }
      handed := handed + [chain.chunk];
      chain := Idle;
    }

    method RefusalRegion()
      modifies this
      ensures State() == old(State()).SendFailed()
    {
      if !chain.Sending? { return; }
      var c := chain.chunk;
      if flowEnabled { inFlight := inFlight - |c|; }
      WakeFlowWaiters(false);
      if status.Closed? || writeStatus.Shut? {
        chain := Broken;
      } else {
        chain := AtPeer(c, false);
        assert State() == old(State()).(inFlight := old(State()).Refunded(), chain := AtPeer(c, false));
        PeerDisconnected(RECONNECT_GRACE_MS);
      }
    }

    method SendFailed()
      modifies this
      ensures State() == old(State()).SendFailed()
      ensures old(Valid()) ==> Valid()
    {
      ghost var before := State();
      RefusalRegion();
      StepKeeps(before, DoSendFailed);
    }

    method CloseCall()
      modifies this
      ensures State() == old(State()).CloseCall()
      ensures old(Valid()) ==> Valid()
    {
      StepKeeps(State(), DoClose);
      if !writeStatus.Writable? { return; }
      writeStatus := Closing;
      closer := Draining;
    }

    method CloseDrained()
      modifies this
      ensures State() == old(State()).CloseDrained()
      ensures old(Valid()) ==> Valid()
    {
      StepKeeps(State(), DoCloseDrained);
      if !closer.Draining? { return; }
      if chain.Broken? {
        closer := CloseFailed;
      } else if chain.Idle? && queue == [] {
        closer := SendingEof;
      }
    }

    method EofSettled(ok: bool) returns (out: seq<Control>)
      modifies this
      ensures Effect(State(), out) == old(State()).EofSettled(ok)
      ensures old(Valid()) ==> Valid()
    {
      StepKeeps(State(), DoEofSettled(ok));
      if !closer.SendingEof? { return []; }
      if !ok {
        closer := CloseFailed;
        return [];
      }
      closer := CloseDone;
      writeStatus := Shut;
      MaybeFinalize();
      return [Eof];
    }

    method Pull()
      modifies this
      ensures State() == old(State()).Pull()
    {
      if items != [] {
        var item := items[0];
        items := items[1..];
        reader := Resting(|item|);
        yielded := yielded + [item];
      } else if readClosed {
        reader := Ended;
      } else {
        reader := Waiting;
      }
    }

    method Next() returns (out: seq<Control>)
      modifies this
      ensures Effect(State(), out) == old(State()).Next()
      ensures old(Valid()) ==> Valid()
    {
      StepKeeps(State(), DoNext);
      out := [];
      if !reader.Resting? { return; }
      if reader.consumed > 0 {
        out := [Ack(reader.consumed)];
        reader := Acking;
        return;
      }
      Pull();
    }

    method ReaderStep()
      modifies this
      ensures State() == old(State()).ReaderStep()
      ensures old(Valid()) ==> Valid()
    {
      StepKeeps(State(), DoReader);
      match reader
      case Acking =>
        Pull();
      case Resolved(c) =>
        reader := Resting(|c|);
        yielded := yielded + [c];
      case _ =>
    }

    method Return() returns (out: seq<Control>)
      modifies this
      ensures Effect(State(), out) == old(State()).Return()
      ensures old(Valid()) ==> Valid()
    {
      StepKeeps(State(), DoReturn);
      out := [];
      if !reader.Resting? { return; }
      if reader.consumed > 0 { out := [Ack(reader.consumed)]; }
      reader := Returned;
    }

    method Greet() returns (out: seq<Control>)
      modifies this
      ensures Effect(State(), out) == old(State()).Greet()
      ensures old(Valid()) ==> Valid()
    {
      StepKeeps(State(), DoGreet);
      if greeted { return []; }
      greeted := true;
      out := if status.Open? then [Flow] else [];
    }

    method KeepAlive() returns (out: seq<Control>)
      ensures Effect(State(), out) == State().KeepAlive()
      ensures old(Valid()) ==> Valid()
    {
      StepKeeps(State(), DoKeepAlive);
      out := if status.Open? then [Ping] else [];
    }
  }
}
