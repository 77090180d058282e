/**
 * Every run of one WebRtcStream, whatever the transport, the peer, the timers and the
 * application do: which facts hold between any two synchronous regions.
 */
module StreamRuns {
  import opened Bytes
  import opened StreamModel

  /** The synchronous regions, with the choices the environment makes. */
  datatype Op =
    | DoSend(chunk: Chunk)
    | DoChain
    | DoSendOk
    | DoSendFailed
    | DoClose
    | DoCloseDrained
    | DoEofSettled(ok: bool)
    | DoAbort
    | DoData(chunk: Chunk)
    | DoControl(control: Control)
    | DoDisconnect(graceMs: nat)
    | DoReconnect
    | DoLeft
    | DoTimer
    | DoNext
    | DoReader
    | DoReturn
    | DoGreet
    | DoKeepAlive

  function Apply(s: StreamState, op: Op): Effect {
    match op
    case DoSend(c) => Effect(match s.Send(c) case Ok(t) => t case Err(_) => s, [])
    case DoChain => Effect(s.ChainStep(), [])
    case DoSendOk => Effect(s.SendOk(), [])
    case DoSendFailed => Effect(s.SendFailed(), [])
    case DoClose => Effect(s.CloseCall(), [])
    case DoCloseDrained => Effect(s.CloseDrained(), [])
    case DoEofSettled(ok) => s.EofSettled(ok)
    case DoAbort => s.AbortCall()
    case DoData(c) => Effect(s.ReceiveData(c), [])
    case DoControl(control) => s.ReceiveControl(control)
    case DoDisconnect(graceMs) => Effect(s.PeerDisconnected(graceMs), [])
    case DoReconnect => s.PeerReconnected()
    case DoLeft => Effect(s.PeerLeft(), [])
    case DoTimer => Effect(s.TimerFires(), [])
    case DoNext => s.Next()
    case DoReader => Effect(s.ReaderStep(), [])
    case DoReturn => s.Return()
    case DoGreet => s.Greet()
    case DoKeepAlive => s.KeepAlive()
  }

  function Exec(s: StreamState, ops: seq<Op>): StreamState
    decreases |ops|
  {
    if ops == [] then s else Exec(Apply(s, ops[0]).s, ops[1..])
  }

  // ----- what holds between regions -----

  /** The chunk of the running operation. */
  function InHand(s: StreamState): seq<Chunk> {
    if s.chain.Idle? || s.chain.Broken? then [] else [s.chain.chunk]
  }

  /** The running operation has passed the test of the credit window and not yet spent it. */
  predicate PastWindow(s: StreamState) {
    || s.chain.AtSend?
    || ((s.chain.AtPeer? || s.chain.PeerParked? || s.chain.PeerWoken?) && s.chain.again)
  }

  /** No wake-up is ever lost: whoever is parked still has the reason it parked for. */
  ghost predicate NoLostWakeup(s: StreamState) {
    && (s.chain.FlowParked? ==> s.Blocked(|s.chain.chunk|))
    && (s.chain.PeerParked? ==> s.status.Open? && s.connection.Reconnecting?)
    && (s.reader.Waiting? ==> s.items == [] && !s.readClosed)
    && (s.reader.Ended? ==> s.items == [] && s.readClosed)
    && (s.reader.Rejected? ==> s.readClosed)
  }

  /** The lifecycle: closed is finalized, exactly once; the timer is armed only for a reconnect. */
  ghost predicate Lifecycle(s: StreamState) {
    && (s.status.Closed? <==> s.finalized)
    && s.finalizeRuns == (if s.finalized then 1 else 0)
    && (s.status.Closed? <==> s.readClosed && s.writeStatus.Shut?)
    && (s.timer <==> s.status.Open? && s.connection.Reconnecting?)
    && (s.connection.Disconnected? ==> s.status.Closed?)
  }

  /** The send chain hands over, in call order and once each, what send accepted. */
  ghost predicate InOrder(s: StreamState) {
    && s.handed <= s.accepted
    && (!s.chain.Broken? ==> s.accepted == s.handed + InHand(s) + s.queue)
    && (s.closer.SendingEof? || s.closer.CloseDone? ==> s.chain.Idle? && s.queue == [])
    && (s.closer.NotClosing? || !s.writeStatus.Writable?)
    && (s.writeStatus.Shut? && s.status.Open? ==> s.closer.CloseDone?)
    && (s.closer.CloseDone? ==> s.writeStatus.Shut?)
  }

  /** The most that may be unacknowledged at once. */
  function Limit(s: StreamState): nat {
    if MaxLen(s.accepted) > s.window then MaxLen(s.accepted) else s.window
  }

  ghost predicate WithinWindow(s: StreamState) {
    && s.inFlight <= Limit(s)
    && (!s.flowEnabled ==> s.inFlight == 0)
    && (PastWindow(s) ==> s.inFlight <= 0 || s.inFlight + |s.chain.chunk| <= s.window)
  }

  ghost predicate Safe(s: StreamState) {
    NoLostWakeup(s) && Lifecycle(s) && InOrder(s) && WithinWindow(s)
  }

  function Rank(w: WriteStatus): nat {
    match w case Writable => 0 case Closing => 1 case Shut => 2
  }

  /** What never goes back. */
  ghost predicate Forward(s: StreamState, t: StreamState) {
    && t.window == s.window
    && (s.status.Closed? ==> t.status.Closed?)
    && (s.finalized ==> t.finalized)
    && (s.readClosed ==> t.readClosed)
    && Rank(s.writeStatus) <= Rank(t.writeStatus)
    && (s.flowEnabled ==> t.flowEnabled)
    && (s.chain.Broken? ==> t.chain.Broken?)
    && (s.closer.CloseDone? ==> t.closer.CloseDone?)
    && s.accepted <= t.accepted
    && s.handed <= t.handed
    && s.yielded <= t.yielded
    && (!s.writeStatus.Writable? ==> t.accepted == s.accepted)
  }

  // ----- each region keeps them -----

  lemma NewStreamSafe(window: nat)
    ensures Safe(NewStream(window))
  {
  }

  /** Finalize restores what a closing region has broken. */
  lemma FinalizeKeeps(s: StreamState)
    requires s.status.Closed? && s.readClosed && s.writeStatus.Shut?
    requires s.finalizeRuns == if s.finalized then 1 else 0
    requires s.finalized ==> !s.timer && !s.chain.FlowParked? && !s.chain.PeerParked?
    requires !s.reader.Waiting?
    requires s.reader.Ended? ==> s.items == []
    requires InOrder(s) && WithinWindow(s)
    ensures Safe(s.Finalize())
  {
  }

  lemma SendSafe(s: StreamState, c: Chunk)
    requires Safe(s)
    ensures Safe(Apply(s, DoSend(c)).s)
  {
    if s.writeStatus.Writable? {
      MaxLenAppend(s.accepted, [c]);
    }
  }

  lemma InHandIsAccepted(s: StreamState)
    requires InOrder(s) && !s.chain.Idle? && !s.chain.Broken?
    ensures |s.chain.chunk| <= MaxLen(s.accepted)
  {
    assert s.accepted[|s.handed|] == s.chain.chunk;
    MaxLenBounds(s.accepted, s.chain.chunk);
  }

  lemma StartSafe(s: StreamState)
    requires Safe(s) && s.chain.Idle?
    ensures Safe(s.ChainStep())
  {
  }

  lemma PeerTestSafe(s: StreamState, c: Chunk, again: bool)
    requires Safe(s)
    requires s.chain == AtPeer(c, again) || s.chain == PeerWoken(c, again)
    ensures Safe(s.WaitForPeer(c, again)) && Safe(s.PeerResumed(c, again))
  {
  }

  lemma WindowTestSafe(s: StreamState, c: Chunk)
    requires Safe(s) && s.chain == AtFlow(c)
    ensures Safe(s.WaitForFlowWindow(c))
  {
  }

  lemma HandOverSafe(s: StreamState, c: Chunk)
    requires Safe(s) && s.chain == AtSend(c)
    ensures Safe(s.HandOver(c))
  {
    InHandIsAccepted(s);
  }

  lemma ChainSafe(s: StreamState)
    requires Safe(s)
    ensures Safe(s.ChainStep())
  {
    match s.chain
    case Idle => StartSafe(s);
    case AtPeer(c, again) => PeerTestSafe(s, c, again);
    case PeerWoken(c, again) => PeerTestSafe(s, c, again);
    case AtFlow(c) => WindowTestSafe(s, c);
    case AtSend(c) => HandOverSafe(s, c);
    case _ =>
  }

  lemma ClosedSafe(s: StreamState)
    requires Safe(s)
    ensures Safe(s.PeerLeft()) && Safe(s.TimerFires()) && Safe(s.AbortCall().s)
  {
    if s.status.Open? {
      FinalizeKeeps(s.(timer := false, connection := Disconnected, status := Closed, writeStatus := Shut)
                     .EndRead().WakeFlowWaiters(true).WakePeerWaiters(true));
      FinalizeKeeps(s.(writeStatus := Shut, status := Closed).Fail());
    }
  }

  lemma SettledSafe(s: StreamState)
    requires Safe(s)
    ensures Safe(s.SendOk())
  {
  }

  lemma RefusedSafe(s: StreamState)
    requires Safe(s)
    ensures Safe(s.SendFailed())
  {
    if s.chain.Sending? {
      if s.status.Closed? || s.writeStatus.Shut? {
      } else {
        DisconnectSafe(s.(inFlight := s.Refunded(), chain := AtPeer(s.chain.chunk, false)), RECONNECT_GRACE_MS);
      }
    }
  }

  lemma ReceiveEofSafe(s: StreamState)
    requires Safe(s)
    ensures Safe(s.EndRead().MaybeFinalize())
  {
    var t := s.EndRead();
    if t.writeStatus.Shut? {
      FinalizeKeeps(t.(status := Closed));
    }
  }

  lemma RemoteAbortSafe(s: StreamState)
    requires Safe(s)
    ensures Safe(s.RemoteAbort())
  {
    FinalizeKeeps(s.(status := Closed, writeStatus := Shut).Fail().WakeFlowWaiters(true));
  }

  lemma ReceiveResumeSafe(s: StreamState)
    requires Safe(s)
    ensures Safe(s.(inFlight := 0).WakeFlowWaiters(false))
  {
    if s.chain.FlowParked? {} else {}
  }

  lemma ReceiveAckSafe(s: StreamState, n: int)
    requires Safe(s)
    ensures Safe(s.Acknowledged(n))
  {
    if n <= 0 {} else if s.chain.FlowParked? {} else {}
  }

  lemma ReceiveFlowSafe(s: StreamState)
    requires Safe(s)
    ensures Safe(s.(flowEnabled := true))
  {
  }

  lemma ReceiveControlSafe(s: StreamState, control: Control)
    requires Safe(s)
    ensures Safe(s.ReceiveControl(control).s)
  {
    match control
    case Eof => ReceiveEofSafe(s);
    case Abort => RemoteAbortSafe(s);
    case Flow => ReceiveFlowSafe(s);
    case Resume => ReceiveResumeSafe(s);
    case Ack(n) => ReceiveAckSafe(s, n);
    case Ping =>
    case Pong =>
    case Unknown =>
  }

  lemma CloseSafe(s: StreamState)
    requires Safe(s)
    ensures Safe(s.CloseCall()) && Safe(s.CloseDrained())
  {
    match s.closer
    case NotClosing => if s.writeStatus.Writable? {} else {}
    case Draining => if s.chain.Broken? {} else if s.chain.Idle? && s.queue == [] {} else {}
    case _ =>
  }

  lemma EofSafe(s: StreamState, ok: bool)
    requires Safe(s)
    ensures Safe(s.EofSettled(ok).s)
  {
    if s.closer.SendingEof? && ok && s.readClosed {
      FinalizeKeeps(s.(closer := CloseDone, writeStatus := Shut, status := Closed));
    }
  }

  lemma DisconnectSafe(s: StreamState, graceMs: nat)
    requires Safe(s)
    ensures Safe(s.PeerDisconnected(graceMs))
  {
    ClosedSafe(s);
  }

  lemma ReconnectSafe(s: StreamState)
    requires Safe(s)
    ensures Safe(s.PeerReconnected().s)
  {
  }

  lemma PullSafe(s: StreamState)
    requires Safe(s) && (s.reader.Resting? || s.reader.Acking?)
    ensures Safe(s.Pull())
  {
    if s.items != [] {
    } else if s.readClosed {
    } else {
    }
  }

  lemma ReaderSafe(s: StreamState)
    requires Safe(s)
    ensures Safe(s.Next().s) && Safe(s.ReaderStep())
  {
    if s.reader.Resting? || s.reader.Acking? {
      PullSafe(s);
    }
  }

  lemma DataSafe(s: StreamState, c: Chunk)
    requires Safe(s)
    ensures Safe(s.ReceiveData(c))
  {
    if s.readClosed || s.status.Closed? {} else if s.reader.Waiting? {} else {}
  }

  lemma ReturnSafe(s: StreamState)
    requires Safe(s)
    ensures Safe(s.Return().s)
  {
  }

  lemma GreetSafe(s: StreamState)
    requires Safe(s)
    ensures Safe(s.Greet().s) && Safe(s.KeepAlive().s)
  {
  }

  /** Every region keeps every invariant. */
  lemma StepSafe(s: StreamState, op: Op)
    requires Safe(s)
    ensures Safe(Apply(s, op).s)
  {
    match op
    case DoSend(c) => SendSafe(s, c);
    case DoChain => ChainSafe(s);
    case DoSendOk => SettledSafe(s);
    case DoSendFailed => RefusedSafe(s);
    case DoClose => CloseSafe(s);
    case DoCloseDrained => CloseSafe(s);
    case DoEofSettled(ok) => EofSafe(s, ok);
    case DoAbort => ClosedSafe(s);
    case DoControl(control) => ReceiveControlSafe(s, control);
    case DoDisconnect(graceMs) => DisconnectSafe(s, graceMs);
    case DoReconnect => ReconnectSafe(s);
    case DoLeft => ClosedSafe(s);
    case DoTimer => ClosedSafe(s);
    case DoNext => ReaderSafe(s);
    case DoReader => ReaderSafe(s);
    case DoData(c) => DataSafe(s, c);
    case DoReturn => ReturnSafe(s);
    case DoGreet => GreetSafe(s);
    case DoKeepAlive => GreetSafe(s);
  }

  lemma StartForward(s: StreamState)
    requires s.chain.Idle?
    ensures Forward(s, s.ChainStep())
  {
  }

  lemma PeerTestForward(s: StreamState, c: Chunk, again: bool)
    requires !s.chain.Broken?
    ensures Forward(s, s.WaitForPeer(c, again)) && Forward(s, s.PeerResumed(c, again))
  {
    if s.connection.Connected? {
      if s.status.Closed? {} else {}
    } else if s.status.Closed? || s.connection.Disconnected? {
    } else {
    }
  }

  lemma WindowTestForward(s: StreamState, c: Chunk)
    requires !s.chain.Broken?
    ensures Forward(s, s.WaitForFlowWindow(c)) && Forward(s, s.HandOver(c))
  {
    if s.writeStatus.Shut? {
    } else if s.Blocked(|c|) {
    } else if s.status.Closed? {
    } else {
    }
  }

  lemma ChainForward(s: StreamState)
    ensures Forward(s, s.ChainStep())
  {
    match s.chain
    case Idle => StartForward(s);
    case AtPeer(c, again) => PeerTestForward(s, c, again);
    case PeerWoken(c, again) => PeerTestForward(s, c, again);
    case AtFlow(c) => WindowTestForward(s, c);
    case AtSend(c) => WindowTestForward(s, c);
    case _ =>
  }

  lemma LeftForward(s: StreamState)
    ensures Forward(s, s.PeerLeft())
  {
  }

  lemma DisconnectForward(s: StreamState, graceMs: nat)
    ensures Forward(s, s.PeerDisconnected(graceMs))
  {
    LeftForward(s);
  }

  lemma FailedForward(s: StreamState)
    ensures Forward(s, s.SendFailed())
  {
    if s.chain.Sending? {
      DisconnectForward(s.(inFlight := s.Refunded(), chain := AtPeer(s.chain.chunk, false)), RECONNECT_GRACE_MS);
    }
  }

  lemma ControlForward(s: StreamState, control: Control)
    ensures Forward(s, s.ReceiveControl(control).s)
  {
    match control
    case Eof =>
    case Abort => AbortForward(s);
    case Ack(n) => if n > 0 {} else {}
    case _ =>
  }

  lemma CloseForward(s: StreamState)
    requires s.closer.NotClosing? || !s.writeStatus.Writable?
    ensures Forward(s, s.CloseCall()) && Forward(s, s.CloseDrained())
  {
    if s.closer.Draining? {
      if s.chain.Broken? {} else {}
    }
  }

  lemma EofForward(s: StreamState, ok: bool)
    ensures Forward(s, s.EofSettled(ok).s)
  {
    if s.closer.SendingEof? && ok {
      if s.readClosed {} else {}
    }
  }

  lemma PullForward(s: StreamState)
    ensures Forward(s, s.Pull())
  {
    if s.items != [] {
    } else if s.readClosed {
    } else {
    }
  }

  lemma ReaderForward(s: StreamState)
    ensures Forward(s, s.ReaderStep())
  {
    match s.reader
    case Acking => PullForward(s);
    case Resolved(c) =>
    case _ =>
  }

  lemma NextForward(s: StreamState)
    ensures Forward(s, s.Next().s)
  {
    if s.reader.Resting? {
      if s.reader.consumed == 0 {
        PullForward(s);
      }
    }
  }

  lemma ArrivalForward(s: StreamState, c: Chunk)
    ensures Forward(s, s.ReceiveData(c))
    ensures s.Send(c).Ok? ==> Forward(s, s.Send(c).value)
  {
    if s.readClosed || s.status.Closed? {} else if s.reader.Waiting? {} else {}
  }

  lemma AbortForward(s: StreamState)
    ensures Forward(s, s.AbortCall().s) && Forward(s, s.RemoteAbort())
  {
    if s.finalized {} else {}
  }

  lemma ReconnectForward(s: StreamState)
    ensures Forward(s, s.PeerReconnected().s)
  {
  }

  lemma PlainForward(s: StreamState)
    ensures Forward(s, s.SendOk()) && Forward(s, s.Greet().s) && Forward(s, s.KeepAlive().s)
  {
    if s.chain.Sending? {} else {}
  }

  lemma ReturnForward(s: StreamState)
    ensures Forward(s, s.Return().s)
  {
  }

  /** No region takes anything back. */
  lemma StepForward(s: StreamState, op: Op)
    requires s.closer.NotClosing? || !s.writeStatus.Writable?
    ensures Forward(s, Apply(s, op).s)
  {
    match op
    case DoSend(c) => ArrivalForward(s, c);
    case DoChain => ChainForward(s);
    case DoSendOk => PlainForward(s);
    case DoSendFailed => FailedForward(s);
    case DoClose => CloseForward(s);
    case DoCloseDrained => CloseForward(s);
    case DoEofSettled(ok) => EofForward(s, ok);
    case DoAbort => AbortForward(s);
    case DoData(c) => ArrivalForward(s, c);
    case DoControl(control) => ControlForward(s, control);
    case DoDisconnect(graceMs) => DisconnectForward(s, graceMs);
    case DoReconnect => ReconnectForward(s);
    case DoLeft => LeftForward(s);
    case DoTimer => LeftForward(s);
    case DoNext => NextForward(s);
    case DoReader => ReaderForward(s);
    case DoReturn => ReturnForward(s);
    case DoGreet => PlainForward(s);
    case DoKeepAlive => PlainForward(s);
  }

  // ----- whole runs -----

  lemma {:induction false} ExecSafe(s: StreamState, ops: seq<Op>)
    requires Safe(s)
    ensures Safe(Exec(s, ops)) && Forward(s, Exec(s, ops))
    decreases |ops|
  {
    if ops == [] {
    } else {
      var t := Apply(s, ops[0]).s;
      StepSafe(s, ops[0]);
      StepForward(s, ops[0]);
      ExecSafe(t, ops[1..]);
      ForwardTrans(s, t, Exec(t, ops[1..]));
    }
  }

  lemma ForwardTrans(s: StreamState, t: StreamState, u: StreamState)
    requires Forward(s, t) && Forward(t, u)
    ensures Forward(s, u)
  {
  }

  /** Every reachable state of a stream, whatever happens to it. */
  lemma EveryRun(window: nat, ops: seq<Op>)
    ensures Safe(Exec(NewStream(window), ops))
    ensures Exec(NewStream(window), ops).window == window
  {
    NewStreamSafe(window);
    ExecSafe(NewStream(window), ops);
  }

  /**
   * End of file is the last thing a stream says about its data: when it is emitted the
   * transport has taken every accepted chunk, and no later run accepts another.
   */
  lemma EofComesLast(s: StreamState, op: Op, later: seq<Op>)
    requires Safe(s) && Eof in Apply(s, op).out
    ensures Apply(s, op).s.handed == s.accepted
    ensures Exec(Apply(s, op).s, later).accepted == s.accepted
    ensures Exec(Apply(s, op).s, later).handed == s.accepted
  {
    var t := Apply(s, op).s;
    StepSafe(s, op);
    assert t.closer.CloseDone? && t.handed == s.accepted;
    ExecSafe(t, later);
  }

  /** A closed stream never opens again, and has run onFinalize once. */
  lemma ClosedIsForever(s: StreamState, ops: seq<Op>)
    requires Safe(s) && s.status.Closed?
    ensures Exec(s, ops).status.Closed? && Exec(s, ops).finalizeRuns == 1
  {
    ExecSafe(s, ops);
  }

  lemma ChainBreaks(s: StreamState)
    requires Safe(s) && !s.chain.Broken? && s.status.Open?
    ensures s.ChainStep().chain.Broken? <==> s.chain.PeerWoken? && s.connection.Reconnecting?
  {
    match s.chain
    case AtPeer(c, again) => if s.connection.Connected? {} else {}
    case PeerWoken(c, again) =>
    case AtFlow(c) =>
    case AtSend(c) =>
    case _ =>
  }

  lemma OpenControlKeepsChain(s: StreamState, control: Control)
    requires !s.chain.Broken? && s.ReceiveControl(control).s.status.Open?
    ensures !s.ReceiveControl(control).s.chain.Broken?
  {
    match control
    case Abort =>
    case Eof =>
    case Ack(n) =>
    case _ =>
  }

  /**
   * A stream that stays open loses its send chain in exactly one way: the operation was
   * woken by a reconnect, and the peer was lost again before it continued.
   */
  lemma OpenChainBreaks(s: StreamState, op: Op)
    requires Safe(s) && !s.chain.Broken?
    requires Apply(s, op).s.status.Open?
    ensures Apply(s, op).s.chain.Broken? <==>
            op.DoChain? && s.chain.PeerWoken? && s.connection.Reconnecting?
  {
    match op
    case DoChain =>
      StepForward(s, op);
      ChainBreaks(s);
    case DoControl(control) => OpenControlKeepsChain(s, control);
    case DoReader => OpenReaderKeepsChain(s);
    case DoNext => OpenReaderKeepsChain(s);
    case DoSendFailed => OpenSettlingKeepsChain(s, false);
    case DoEofSettled(ok) => OpenSettlingKeepsChain(s, ok);
    case DoSend(c) =>
    case DoSendOk =>
    case DoClose =>
    case DoCloseDrained =>
    case DoData(c) =>
    case DoDisconnect(graceMs) =>
    case DoReconnect =>
    case DoLeft =>
    case DoTimer =>
    case DoAbort =>
    case DoReturn =>
    case DoGreet =>
    case DoKeepAlive =>
  }

  lemma OpenReaderKeepsChain(s: StreamState)
    requires Safe(s) && !s.chain.Broken?
    ensures !s.ReaderStep().chain.Broken? && !s.Next().s.chain.Broken?
  {
    if s.reader.Acking? {} else {}
  }

  lemma OpenSettlingKeepsChain(s: StreamState, ok: bool)
    requires Safe(s) && !s.chain.Broken?
    ensures s.SendFailed().status.Open? ==> !s.SendFailed().chain.Broken?
    ensures s.EofSettled(ok).s.status.Open? ==> !s.EofSettled(ok).s.chain.Broken?
  {
  }

  lemma ExecCons(s: StreamState, op: Op, ops: seq<Op>)
    ensures Exec(s, [op] + ops) == Exec(Apply(s, op).s, ops)
  {
    assert ([op] + ops)[1..] == ops;
  }

  /** A stream whose peer is away, with one byte waiting for it. */
  function AwaitingPeer(): StreamState {
    NewStream(1).(connection := Reconnecting, timer := true, chain := PeerParked([7], false), accepted := [[7]])
  }

  lemma AwaitingPeerIsReached()
    ensures Exec(NewStream(1), [DoDisconnect(1), DoSend([7]), DoChain, DoChain]) == AwaitingPeer()
  {
    var s0 := NewStream(1);
    var s1 := s0.PeerDisconnected(1);
    var s2 := s1.Send([7]).value;
    var s3 := s2.ChainStep();
    assert s3.ChainStep() == AwaitingPeer();
    ExecCons(s0, DoDisconnect(1), [DoSend([7]), DoChain, DoChain]);
    ExecCons(s1, DoSend([7]), [DoChain, DoChain]);
    ExecCons(s2, DoChain, [DoChain]);
    ExecCons(s3, DoChain, []);
  }

  /** From there: the byte is never handed over although the peer is back and the stream open. */
  lemma QuickLossBreaksChain()
    ensures var s := Exec(AwaitingPeer(), [DoReconnect, DoDisconnect(1), DoChain, DoReconnect]);
            s.status.Open? && s.connection.Connected? && s.chain.Broken? && s.accepted == [[7]] && s.handed == []
  {
    var s4 := AwaitingPeer();
    var s5 := s4.PeerReconnected().s;
    var s6 := s5.PeerDisconnected(1);
    var s7 := s6.ChainStep();
    assert s7 == s4.(chain := Broken);
    var s8 := s7.PeerReconnected().s;
    ExecCons(s4, DoReconnect, [DoDisconnect(1), DoChain, DoReconnect]);
    ExecCons(s5, DoDisconnect(1), [DoChain, DoReconnect]);
    ExecCons(s6, DoChain, [DoReconnect]);
    ExecCons(s7, DoReconnect, []);
  }
}
