/**
 * How close() fails: when, with what consequence, and until when the stream stays closing.
 */
module StreamClose {
  import opened Bytes
  import opened StreamModel
  import opened StreamRuns
  import opened StreamBooks
  import opened PairCredit
  import opened StreamEnd

  /** The two places where close fails: the chain it waits for, and its eof. */
  predicate FailsClose(s: StreamState, op: Op) {
    (op.DoCloseDrained? && s.closer.Draining? && s.chain.Broken?) || (op == DoEofSettled(false) && s.closer.SendingEof?)
  }

  lemma FinalizeLeavesCloser(s: StreamState)
    ensures s.Finalize().closer == s.closer
  {
    if s.finalized {} else {}
  }

  lemma LossLeavesCloser(s: StreamState, graceMs: nat)
    ensures s.PeerLeft().closer == s.closer && s.PeerDisconnected(graceMs).closer == s.closer && s.TimerFires().closer == s.closer
  {
    if s.status.Open? {
      FinalizeLeavesCloser(s.(timer := false, connection := Disconnected, status := Closed, writeStatus := Shut)
                           .EndRead().WakeFlowWaiters(true).WakePeerWaiters(true));
    }
  }

  lemma ClosingLeavesCloser(s: StreamState, graceMs: nat)
    ensures s.PeerLeft().closer == s.closer && s.PeerDisconnected(graceMs).closer == s.closer
    ensures s.TimerFires().closer == s.closer && s.AbortCall().s.closer == s.closer && s.RemoteAbort().closer == s.closer
  {
    LossLeavesCloser(s, graceMs);
    FinalizeLeavesCloser(s.(writeStatus := Shut, status := Closed).Fail());
    FinalizeLeavesCloser(s.(status := Closed, writeStatus := Shut).Fail().WakeFlowWaiters(true));
  }

  lemma ControlLeavesCloser(s: StreamState, control: Control)
    ensures s.ReceiveControl(control).s.closer == s.closer
  {
    ClosingLeavesCloser(s, 0);
    match control
    case Eof => if s.writeStatus.Shut? {} else {}
    case Ack(n) => if n <= 0 {} else {}
    case _ =>
  }

  lemma ReadingLeavesCloser(s: StreamState)
    ensures s.Next().s.closer == s.closer && s.ReaderStep().closer == s.closer
  {
    assert s.Pull().closer == s.closer by {
      if s.items != [] {} else if s.readClosed {} else {}
    }
    match s.reader
    case Resting(n) => if n > 0 {} else {}
    case _ =>
  }

  lemma ChainLeavesCloser(s: StreamState)
    ensures s.ChainStep().closer == s.closer
  {
    match s.chain
    case AtPeer(c, again) => if s.connection.Connected? {} else if s.status.Closed? {} else {}
    case AtFlow(c) => if s.Blocked(|c|) {} else if s.status.Closed? {} else {}
    case AtSend(c) => if s.writeStatus.Shut? {} else {}
    case _ =>
  }

  lemma RefusalLeavesCloser(s: StreamState)
    ensures s.SendFailed().closer == s.closer
  {
    if s.chain.Sending? {
      if s.status.Closed? || s.writeStatus.Shut? {
      } else {
        ClosingLeavesCloser(s.(inFlight := s.Refunded(), chain := AtPeer(s.chain.chunk, false)), RECONNECT_GRACE_MS);
      }
    }
  }

  /** Regions that are no part of close leave it where it is. */
  lemma CloserIsLeftAlone(s: StreamState, op: Op)
    requires !op.DoClose? && !op.DoCloseDrained? && !op.DoEofSettled?
    ensures Apply(s, op).s.closer == s.closer
  {
    match op
    case DoSend(c) => if s.writeStatus.Writable? {} else {}
    case DoChain => ChainLeavesCloser(s);
    case DoSendOk =>
    case DoSendFailed => RefusalLeavesCloser(s);
    case DoAbort => ClosingLeavesCloser(s, 0);
    case DoData(c) => if s.readClosed || s.status.Closed? {} else {}
    case DoControl(control) => ControlLeavesCloser(s, control);
    case DoDisconnect(graceMs) => ClosingLeavesCloser(s, graceMs);
    case DoReconnect =>
    case DoLeft => ClosingLeavesCloser(s, 0);
    case DoTimer => ClosingLeavesCloser(s, 0);
    case DoNext => ReadingLeavesCloser(s);
    case DoReader => ReadingLeavesCloser(s);
    case DoReturn =>
    case DoGreet =>
    case DoKeepAlive =>
  }

  lemma EofSettles(s: StreamState, ok: bool)
    ensures s.EofSettled(ok).s.closer ==
            if !s.closer.SendingEof? then s.closer else if ok then CloseDone else CloseFailed
  {
    if s.closer.SendingEof? && ok {
      if s.readClosed {
        if s.finalized {} else {}
      }
    }
  }

  /** close fails in exactly two ways: the send chain broke before it drained, or its eof was not sent. */
  lemma CloseFails(s: StreamState, op: Op)
    requires Safe(s) && !s.closer.CloseFailed?
    ensures Apply(s, op).s.closer.CloseFailed? <==> FailsClose(s, op)
  {
    match op
    case DoClose => if s.writeStatus.Writable? {} else {}
    case DoCloseDrained => if s.chain.Broken? {} else {}
    case DoEofSettled(ok) => EofSettles(s, ok);
    case _ => CloserIsLeftAlone(s, op);
  }

  /** An eof is said in exactly one region. */
  lemma EofIsSaid(s: StreamState, op: Op)
    ensures Eof in Apply(s, op).out <==> op == DoEofSettled(true) && s.closer.SendingEof?
  {
    match op
    case DoEofSettled(ok) =>
    case DoNext => if s.reader.Resting? {}
    case DoControl(control) =>
    case DoReturn => if s.reader.Resting? {}
    case _ =>
  }

  lemma FailureStays(s: StreamState, op: Op)
    requires Safe(s) && s.closer.CloseFailed?
    ensures Apply(s, op).s.closer.CloseFailed?
  {
    match op
    case DoClose =>
    case DoCloseDrained =>
    case DoEofSettled(ok) =>
    case _ => CloserIsLeftAlone(s, op);
  }

  /** The controls of a run. */
  function Said(s: StreamState, ops: seq<Op>): seq<Control>
    decreases |ops|
  {
    if ops == [] then [] else Apply(s, ops[0]).out + Said(Apply(s, ops[0]).s, ops[1..])
  }

  /**
   * A failed close is never made good: no later run says eof, and the stream stays closing, and
   * takes no chunk, until it is closed.
   */
  lemma {:induction false} FailedCloseStays(s: StreamState, ops: seq<Op>)
    requires Safe(s) && s.closer.CloseFailed?
    ensures var t := Exec(s, ops);
            && t.closer.CloseFailed?
            && Eof !in Said(s, ops)
            && (t.status.Open? ==> t.writeStatus.Closing?)
            && t.accepted == s.accepted
    decreases |ops|
  {
    ExecSafe(s, ops);
    if ops == [] {
    } else {
      StepSafe(s, ops[0]);
      EofIsSaid(s, ops[0]);
      FailureStays(s, ops[0]);
      FailedCloseStays(Apply(s, ops[0]).s, ops[1..]);
    }
  }

  lemma EofDoesNotClose(s: StreamState)
    requires s.status.Open? && !s.writeStatus.Shut?
    ensures s.EndRead().MaybeFinalize().status.Open?
  {
  }

  /** And then only an abort or the loss of the peer closes it: an eof of the peer does not. */
  lemma FailedCloseEnds(s: StreamState, op: Op)
    requires Safe(s) && s.closer.CloseFailed? && s.status.Open?
    ensures Apply(s, op).s.status.Closed? <==> Aborts(op) || LosesPeer(s, op)
  {
    if Aborts(op) || LosesPeer(s, op) {
      LossOrAbortCloses(s, op);
    } else {
      OthersLeaveOpen(s, op);
    }
  }

  lemma LossOrAbortCloses(s: StreamState, op: Op)
    requires Aborts(op) || LosesPeer(s, op)
    ensures Apply(s, op).s.status.Closed?
  {
    if s.finalized {} else {}
  }

  lemma ReadingLeavesStatus(s: StreamState)
    ensures s.Next().s.status == s.status && s.ReaderStep().status == s.status
  {
    if s.reader.Acking? {} else {}
  }

  lemma ChainLeavesStatus(s: StreamState)
    ensures s.ChainStep().status == s.status
  {
    match s.chain
    case AtPeer(c, again) => if s.connection.Connected? {} else if s.status.Closed? {} else {}
    case AtFlow(c) => if s.Blocked(|c|) {} else if s.status.Closed? {} else {}
    case AtSend(c) => if s.writeStatus.Shut? {} else {}
    case _ =>
  }

  lemma ControlLeavesOpen(s: StreamState, control: Control)
    requires s.status.Open? && !s.writeStatus.Shut? && control != Abort
    ensures s.ReceiveControl(control).s.status.Open?
  {
    EofDoesNotClose(s);
    match control
    case Ack(n) => if n <= 0 {} else {}
    case _ =>
  }

  lemma OthersLeaveOpen(s: StreamState, op: Op)
    requires Safe(s) && s.closer.CloseFailed? && s.status.Open? && !Aborts(op) && !LosesPeer(s, op)
    ensures Apply(s, op).s.status.Open?
  {
    match op
    case DoSend(c) =>
    case DoChain => ChainLeavesStatus(s);
    case DoSendOk =>
    case DoSendFailed => RefusalLeavesOpen(s);
    case DoClose =>
    case DoCloseDrained =>
    case DoEofSettled(ok) =>
    case DoData(c) => if s.readClosed {} else {}
    case DoControl(control) => ControlLeavesOpen(s, control);
    case DoDisconnect(graceMs) =>
    case DoReconnect =>
    case DoLeft =>
    case DoTimer =>
    case DoNext => ReadingLeavesStatus(s);
    case DoReader => ReadingLeavesStatus(s);
    case DoReturn =>
    case DoGreet =>
    case DoKeepAlive =>
    case DoAbort =>
  }

  lemma RefusalLeavesOpen(s: StreamState)
    requires s.status.Open?
    ensures s.SendFailed().status.Open?
  {
  }

  // ----- runs that fail -----

  /** A stream whose close failed, still open and connected. */
  predicate Lingers(s: StreamState) {
    s.closer.CloseFailed? && s.writeStatus.Closing? && s.status.Open? && s.connection.Connected? && !s.timer
  }

  /** One refused eof is enough. */
  lemma RefusedEofLingers(window: nat)
    ensures Lingers(Exec(NewStream(window), [DoClose, DoCloseDrained, DoEofSettled(false)]))
  {
    var s0 := NewStream(window);
    var s1 := s0.CloseCall();
    var s2 := s1.CloseDrained();
    ExecCons(s0, DoClose, [DoCloseDrained, DoEofSettled(false)]);
    ExecCons(s1, DoCloseDrained, [DoEofSettled(false)]);
    ExecCons(s2, DoEofSettled(false), []);
  }

  /** A stream whose chain a quick second loss has broken, with its peer back. */
  function BrokenChain(): StreamState {
    NewStream(1).(chain := Broken, accepted := [[7]])
  }

  lemma BrokenChainIsReached()
    ensures Exec(AwaitingPeer(), [DoReconnect, DoDisconnect(1), DoChain, DoReconnect]) == BrokenChain()
  {
    var s0 := AwaitingPeer();
    var s1 := s0.PeerReconnected().s;
    assert s1 == s0.(connection := Connected, timer := false, chain := PeerWoken([7], false));
    var s2 := s1.PeerDisconnected(1);
    assert s2 == s0.(chain := PeerWoken([7], false));
    var s3 := s2.ChainStep();
    assert s3 == s0.(chain := Broken);
    ExecCons(s0, DoReconnect, [DoDisconnect(1), DoChain, DoReconnect]);
    ExecCons(s1, DoDisconnect(1), [DoChain, DoReconnect]);
    ExecCons(s2, DoChain, [DoReconnect]);
    ExecCons(s3, DoReconnect, []);
  }

  /** And there a close fails too. */
  lemma BrokenChainLingers()
    ensures Lingers(Exec(BrokenChain(), [DoClose, DoCloseDrained]))
  {
    var s := BrokenChain();
    var t := s.CloseCall();
    ExecCons(s, DoClose, [DoCloseDrained]);
    ExecCons(t, DoCloseDrained, []);
  }
}
