/**
 * The two books that credit is kept in: what a sender counts as unacknowledged beyond the
 * chunk it is handing over, and what a receiver holds unacknowledged. Every region of a
 * stream keeps both.
 */
module StreamBooks {
  import opened Bytes
  import opened StreamModel
  import opened StreamRuns
  import opened StreamPair

  /** The bytes of a chunk that the transport has not settled yet. */
  function HandingOver(s: StreamState): nat {
    if s.chain.Sending? then |s.chain.chunk| else 0
  }

  /** What the sender counts beyond that. */
  function Debt(s: StreamState): int {
    s.inFlight - HandingOver(s)
  }

  /** The bytes a receiver has and has not acknowledged. */
  function Held(s: StreamState): nat {
    Size(s.items) + match s.reader
                    case Resting(n) => n
                    case Resolved(c) => |c|
                    case _ => 0
  }

  /** The chunks a receiver was given, in order, read or not. */
  function Received(s: StreamState): seq<Chunk> {
    s.yielded + (if s.reader.Resolved? then [s.reader.chunk] else []) + s.items
  }

  ghost predicate SameHistory(s: StreamState, t: StreamState) {
    t.handed == s.handed && t.yielded == s.yielded && t.uncounted == s.uncounted
  }

  /** Nothing is handed over, received or lost; only unmetered bytes may be counted apart. */
  ghost predicate SameData(s: StreamState, t: StreamState) {
    && t.handed == s.handed
    && Received(t) == Received(s)
    && Debt(t) + t.uncounted >= Debt(s) + s.uncounted
    && (s.flowEnabled ==> t.uncounted == s.uncounted)
  }

  /** Nothing is handed over, received or lost. */
  ghost predicate SameChunks(s: StreamState, t: StreamState) {
    t.handed == s.handed && Received(t) == Received(s)
  }

  /** The debt does not grow, or is settled altogether. */
  predicate DebtKept(s: StreamState, t: StreamState) {
    Debt(t) <= Debt(s) || Debt(t) <= 0
  }

  /** Held bytes leave a receiver only as acknowledgements. */
  predicate HeldKept(s: StreamState, e: Effect) {
    Held(e.s) + AckSum(e.out) == Held(s)
  }

  lemma SizeOne(c: Chunk)
    ensures Size([c]) == |c|
  {
    assert [c][1..] == [];
  }

  lemma SumOne(control: Control)
    ensures AckSum([control]) == AckOf(control)
  {
    assert [control][1..] == [];
  }

  lemma SendBooks(s: StreamState)
    requires WithinWindow(s)
    ensures s.chain.Sending? ==> Debt(s.SendOk()) == Debt(s) + |s.chain.chunk| && Held(s.SendOk()) == Held(s)
    ensures DebtKept(s, s.SendFailed()) && Held(s.SendFailed()) == Held(s)
  {
  }

  /** What the transport takes is handed over; what it refuses is not. */
  lemma SendChunks(s: StreamState)
    ensures s.chain.Sending? ==> s.SendOk().handed == s.handed + [s.chain.chunk] &&
                                 Received(s.SendOk()) == Received(s) && s.SendOk().uncounted == s.uncounted
    ensures SameChunks(s, s.SendFailed())
  {
    if s.chain.Sending? {
      if s.status.Closed? || s.writeStatus.Shut? {
      } else {
        DisconnectBooks(s.(inFlight := s.Refunded(), chain := AtPeer(s.chain.chunk, false)), RECONNECT_GRACE_MS);
      }
    }
  }

  /** What the send chain does to the books before it hands a chunk over. */
  ghost predicate NothingSpent(s: StreamState, t: StreamState) {
    && t.inFlight == s.inFlight && t.items == s.items && t.reader == s.reader && !t.chain.Sending?
    && SameHistory(s, t)
  }

  lemma PeerTestBooks(s: StreamState, c: Chunk, again: bool)
    ensures NothingSpent(s, s.WaitForPeer(c, again))
    ensures NothingSpent(s, s.PeerResumed(c, again))
  {
    if s.connection.Connected? {} else if s.status.Closed? {} else {}
  }

  lemma WindowTestBooks(s: StreamState, c: Chunk)
    ensures NothingSpent(s, s.WaitForFlowWindow(c))
  {
    if s.Blocked(|c|) {} else if s.status.Closed? || s.writeStatus.Shut? {} else {}
  }

  lemma HandOverBooks(s: StreamState, c: Chunk)
    requires WithinWindow(s) && s.chain == AtSend(c)
    ensures DebtKept(s, s.HandOver(c)) && Held(s.HandOver(c)) == Held(s) && SameData(s, s.HandOver(c))
  {
    if s.writeStatus.Shut? {} else if s.flowEnabled {} else {}
  }

  lemma ChainBooks(s: StreamState)
    requires WithinWindow(s)
    ensures DebtKept(s, s.ChainStep()) && Held(s.ChainStep()) == Held(s) && SameData(s, s.ChainStep())
  {
    match s.chain
    case Idle =>
    case AtPeer(c, again) => PeerTestBooks(s, c, again);
    case PeerWoken(c, again) => PeerTestBooks(s, c, again);
    case AtFlow(c) => WindowTestBooks(s, c);
    case AtSend(c) => HandOverBooks(s, c);
    case _ =>
  }

  /** A closing region neither sends nor loses what has been received. */
  ghost predicate Untouched(s: StreamState, t: StreamState) {
    && t.inFlight == s.inFlight
    && t.items == s.items
    && (t.chain.Sending? <==> s.chain.Sending?)
    && (t.chain.Sending? ==> t.chain == s.chain)
    && (t.reader == s.reader || (s.reader.Waiting? && (t.reader.Ended? || t.reader.Rejected?)))
    && SameHistory(s, t)
  }

  lemma UntouchedBooks(s: StreamState, t: StreamState)
    requires Untouched(s, t)
    ensures Debt(t) == Debt(s) && Held(t) == Held(s) && SameData(s, t)
  {
  }

  lemma LeftUntouched(s: StreamState)
    ensures Untouched(s, s.PeerLeft())
  {
    if s.status.Open? {
      var left := s.(timer := false, connection := Disconnected, status := Closed, writeStatus := Shut).EndRead();
      assert Untouched(s, left);
      if s.finalized {} else {}
    }
  }

  lemma FinalizeUntouched(s: StreamState)
    ensures Untouched(s, s.Finalize())
  {
    if s.finalized {} else {}
  }

  /** Regions that change only the status, and then fail and finalize. */
  lemma FailedUntouched(s: StreamState, t: StreamState)
    requires t == s.(status := Closed, writeStatus := Shut).Fail()
    ensures Untouched(s, t.Finalize()) && Untouched(s, t.WakeFlowWaiters(true).Finalize())
  {
    FinalizeUntouched(t);
    FinalizeUntouched(t.WakeFlowWaiters(true));
  }

  lemma AbortUntouched(s: StreamState)
    ensures Untouched(s, s.AbortCall().s)
  {
    FailedUntouched(s, s.(status := Closed, writeStatus := Shut).Fail());
  }

  lemma RemoteAbortUntouched(s: StreamState)
    ensures Untouched(s, s.RemoteAbort())
  {
    FailedUntouched(s, s.(status := Closed, writeStatus := Shut).Fail());
  }

  lemma EofUntouched(s: StreamState)
    ensures Untouched(s, s.EndRead().MaybeFinalize())
  {
    if s.writeStatus.Shut? {
      if s.finalized {} else {}
    }
  }

  lemma DisconnectBooks(s: StreamState, graceMs: nat)
    ensures Debt(s.PeerDisconnected(graceMs)) == Debt(s) && Held(s.PeerDisconnected(graceMs)) == Held(s)
    ensures SameData(s, s.PeerDisconnected(graceMs))
  {
    LeftUntouched(s);
    UntouchedBooks(s, s.PeerLeft());
  }

  lemma ReconnectBooks(s: StreamState)
    ensures DebtKept(s, s.PeerReconnected().s) && HeldKept(s, s.PeerReconnected())
    ensures SameChunks(s, s.PeerReconnected().s)
  {
    assert AckSum([Resume, Flow]) == 0 by {
      assert [Resume, Flow][1..] == [Flow];
      SumOne(Flow);
    }
  }

  lemma PullBooks(s: StreamState)
    requires s.reader.Acking? || s.reader == Resting(0)
    ensures Debt(s.Pull()) == Debt(s) && Held(s.Pull()) == Held(s) && SameData(s, s.Pull())
  {
    if s.items != [] {
      assert s.items == [s.items[0]] + s.items[1..];
    } else if s.readClosed {
    } else {
    }
  }

  lemma ReaderBooks(s: StreamState)
    ensures Debt(s.ReaderStep()) == Debt(s) && Held(s.ReaderStep()) == Held(s) && SameData(s, s.ReaderStep())
  {
    match s.reader
    case Acking => PullBooks(s);
    case Resolved(c) =>
    case _ =>
  }

  lemma NextBooks(s: StreamState)
    ensures Debt(s.Next().s) == Debt(s) && HeldKept(s, s.Next()) && SameData(s, s.Next().s)
  {
    match s.reader
    case Resting(n) =>
      SumOne(Ack(n));
      if n == 0 {
        PullBooks(s);
      }
    case _ =>
  }

  lemma ReturnBooks(s: StreamState)
    ensures Debt(s.Return().s) == Debt(s) && HeldKept(s, s.Return()) && SameData(s, s.Return().s)
  {
    match s.reader
    case Resting(n) => SumOne(Ack(n));
    case _ =>
  }

  lemma CloseBooks(s: StreamState, ok: bool)
    ensures DebtKept(s, s.EofSettled(ok).s) && HeldKept(s, s.EofSettled(ok)) && SameData(s, s.EofSettled(ok).s)
  {
    SumOne(Eof);
    assert Untouched(s, s.EofSettled(ok).s) by {
      if ok && s.readClosed && s.closer.SendingEof? {
        if s.finalized {} else {}
      }
    }
    UntouchedBooks(s, s.EofSettled(ok).s);
  }

  lemma ClosingBooks(s: StreamState)
    ensures Debt(s.PeerLeft()) == Debt(s) && Held(s.PeerLeft()) == Held(s) && SameData(s, s.PeerLeft())
    ensures Debt(s.AbortCall().s) == Debt(s) && HeldKept(s, s.AbortCall()) && SameData(s, s.AbortCall().s)
  {
    LeftUntouched(s);
    UntouchedBooks(s, s.PeerLeft());
    AbortUntouched(s);
    UntouchedBooks(s, s.AbortCall().s);
    SumOne(Abort);
  }

  /** The regions that only queue a chunk or advance a close. */
  lemma QueueUntouched(s: StreamState, c: Chunk)
    ensures Untouched(s, Apply(s, DoSend(c)).s)
  {
  }

  lemma CloseUntouched(s: StreamState)
    ensures Untouched(s, s.CloseCall()) && Untouched(s, s.CloseDrained())
  {
    if s.chain.Broken? {} else {}
  }

  /** A region that needs nothing from the network keeps both books and the data. */
  lemma LocalBooks(s: StreamState, op: Op)
    requires WithinWindow(s) && IsLocal(op)
    ensures DebtKept(s, Apply(s, op).s) && HeldKept(s, Apply(s, op)) && SameData(s, Apply(s, op).s)
  {
    match op
    case DoSend(c) =>
      QueueUntouched(s, c);
      UntouchedBooks(s, Apply(s, op).s);
    case DoChain => ChainBooks(s);
    case DoClose =>
      CloseUntouched(s);
      UntouchedBooks(s, s.CloseCall());
    case DoCloseDrained =>
      CloseUntouched(s);
      UntouchedBooks(s, s.CloseDrained());
    case DoAbort => ClosingBooks(s);
    case DoLeft => ClosingBooks(s);
    case DoTimer => ClosingBooks(s);
    case DoNext => NextBooks(s);
    case DoReader => ReaderBooks(s);
    case DoReturn => ReturnBooks(s);
    case DoGreet => SumOne(Flow);
    case DoKeepAlive => SumOne(Ping);
  }

  lemma ControlBooks(s: StreamState, control: Control)
    ensures Debt(s.ReceiveControl(control).s) <= 0 ||
            Debt(s.ReceiveControl(control).s) <= Debt(s) - AckOf(control)
    ensures HeldKept(s, s.ReceiveControl(control))
    ensures SameChunks(s, s.ReceiveControl(control).s)
    ensures s.ReceiveControl(control).s.uncounted == s.uncounted
    ensures control != Resume ==> Debt(s.ReceiveControl(control).s) >= Debt(s) - AckOf(control)
  {
    match control
    case Abort =>
      RemoteAbortUntouched(s);
      UntouchedBooks(s, s.RemoteAbort());
    case Eof =>
      EofUntouched(s);
      UntouchedBooks(s, s.EndRead().MaybeFinalize());
    case Resume => ResumeBooks(s);
    case Ping => SumOne(Pong);
    case Ack(n) => AckBooks(s, n);
    case Flow =>
    case Pong =>
    case Unknown =>
  }

  lemma ResumeBooks(s: StreamState)
    ensures Debt(s.(inFlight := 0).WakeFlowWaiters(false)) <= 0
    ensures HeldKept(s, Effect(s.(inFlight := 0).WakeFlowWaiters(false), [Flow]))
    ensures SameChunks(s, s.(inFlight := 0).WakeFlowWaiters(false))
  {
    SumOne(Flow);
    if s.chain.FlowParked? {} else {}
  }

  lemma AckBooks(s: StreamState, n: int)
    ensures Debt(s.Acknowledged(n)) <= 0 || Debt(s.Acknowledged(n)) <= Debt(s) - AckOf(Ack(n))
    ensures Debt(s.Acknowledged(n)) >= Debt(s) - AckOf(Ack(n))
    ensures HeldKept(s, Effect(s.Acknowledged(n), [])) && SameChunks(s, s.Acknowledged(n))
    ensures s.Acknowledged(n).uncounted == s.uncounted
  {
    if n <= 0 {} else if s.chain.FlowParked? {} else {}
  }

  lemma DataBooks(s: StreamState, c: Chunk)
    requires NoLostWakeup(s)
    ensures Debt(s.ReceiveData(c)) == Debt(s)
    ensures Held(s.ReceiveData(c)) == if s.readClosed || s.status.Closed? then Held(s) else Held(s) + |c|
    ensures s.ReceiveData(c).handed == s.handed && s.ReceiveData(c).uncounted == s.uncounted
    ensures Received(s.ReceiveData(c)) == Received(s) + if s.readClosed || s.status.Closed? then [] else [c]
  {
    SizeAppend(s.items, [c]);
    SizeOne(c);
    if s.readClosed || s.status.Closed? {} else if s.reader.Waiting? {} else {}
  }
}
