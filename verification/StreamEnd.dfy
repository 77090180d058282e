/**
 * How reading ends. The application's iterator says `done` after an eof, and also whenever the
 * peer is lost for good, or the stream is aborted while no `next` is parked: exactly then it
 * ends as if the stream were complete.
 */
module StreamEnd {
  import opened Bytes
  import opened StreamModel
  import opened StreamRuns
  import opened StreamBooks
  import opened PairCredit

  /** A region that aborts the stream, from here or from the peer. */
  predicate Aborts(op: Op) {
    op.DoAbort? || op == DoControl(Abort)
  }

  /** A region that gives the peer up: it left, its grace is over, or it was given none. */
  predicate LosesPeer(s: StreamState, op: Op) {
    s.status.Open? &&
    (op.DoLeft? || (op.DoTimer? && s.timer) || (op.DoDisconnect? && op.graceMs == 0 && !s.connection.Reconnecting?))
  }

  // ----- one region -----

  lemma ControlClosesReading(s: StreamState, control: Control)
    requires !s.readClosed
    ensures s.ReceiveControl(control).s.readClosed <==> control == Eof || control == Abort
  {
    match control
    case Eof => if s.writeStatus.Shut? {} else {}
    case Abort =>
    case Ack(n) =>
    case _ =>
  }

  lemma EofReadsOn(s: StreamState, ok: bool)
    ensures var t := s.EofSettled(ok).s; t.readClosed == s.readClosed && t.reader == s.reader && t.items == s.items
  {
    if s.closer.SendingEof? && ok {
      if s.readClosed {} else {}
    }
  }

  lemma RefusalReadsOn(s: StreamState)
    ensures s.SendFailed().readClosed == s.readClosed && s.SendFailed().reader == s.reader
  {
    RefusalKeepsReconnecting(s);
    if s.chain.Sending? {
      if s.status.Closed? || s.writeStatus.Shut? {} else {}
    }
  }

  /** Reading is closed by an eof, an abort, or the loss of the peer, and by nothing else. */
  lemma ReadingCloses(s: StreamState, op: Op)
    requires Safe(s) && !s.readClosed
    ensures Apply(s, op).s.readClosed <==> op == DoControl(Eof) || Aborts(op) || LosesPeer(s, op)
  {
    match op
    case DoSend(c) =>
    case DoChain => ChainKeepsConnection(s);
    case DoSendOk =>
    case DoSendFailed => RefusalReadsOn(s);
    case DoClose =>
    case DoCloseDrained =>
    case DoEofSettled(ok) => EofReadsOn(s, ok);
    case DoAbort =>
    case DoData(c) =>
    case DoControl(control) => ControlClosesReading(s, control);
    case DoDisconnect(graceMs) =>
    case DoReconnect =>
    case DoLeft =>
    case DoTimer =>
    case DoNext => ReaderKeepsConnection(s);
    case DoReader => ReaderKeepsConnection(s);
    case DoReturn =>
    case DoGreet =>
    case DoKeepAlive =>
  }

  lemma ReadingIsOpen(s: StreamState)
    requires Safe(s) && !s.readClosed
    ensures s.status.Open?
  {
  }

  lemma EofOutcome(s: StreamState)
    requires !s.readClosed
    ensures s.EndRead().MaybeFinalize().items == s.items
    ensures s.EndRead().MaybeFinalize().reader == if s.reader.Waiting? then Ended else s.reader
  {
    if s.writeStatus.Shut? {} else {}
  }

  lemma FailOutcome(s: StreamState)
    ensures s.Fail().Finalize().items == s.items
    ensures s.Fail().Finalize().reader == if s.reader.Waiting? then Rejected else s.reader
  {
    if s.finalized {} else {}
  }

  lemma AbortOutcome(s: StreamState)
    requires s.status.Open?
    ensures s.AbortCall().s.items == s.items
    ensures s.AbortCall().s.reader == if s.reader.Waiting? then Rejected else s.reader
  {
    FailOutcome(s.(writeStatus := Shut, status := Closed));
  }

  lemma RemoteAbortOutcome(s: StreamState)
    ensures s.RemoteAbort().items == s.items
    ensures s.RemoteAbort().reader == if s.reader.Waiting? then Rejected else s.reader
  {
    if s.finalized {} else {}
  }

  /** What the closing of reading makes of the reader: a parked one is told, any other goes on as it was. */
  lemma ClosingOutcome(s: StreamState, op: Op)
    requires Safe(s) && !s.readClosed && Apply(s, op).s.readClosed
    ensures var t := Apply(s, op).s;
            && t.items == s.items
            && t.reader == (if !s.reader.Waiting? then s.reader else if Aborts(op) then Rejected else Ended)
  {
    ReadingCloses(s, op);
    ReadingIsOpen(s);
    if op == DoControl(Eof) {
      EofOutcome(s);
    } else if op.DoAbort? {
      AbortOutcome(s);
    } else if op == DoControl(Abort) {
      RemoteAbortOutcome(s);
    } else {
      LossOutcome(s);
      LossIsLeaving(s, op);
    }
  }

  lemma LossIsLeaving(s: StreamState, op: Op)
    requires LosesPeer(s, op)
    ensures Apply(s, op).s == s.PeerLeft()
  {
  }

  lemma LossOutcome(s: StreamState)
    requires s.status.Open? && !s.readClosed
    ensures s.PeerLeft().items == s.items
    ensures s.PeerLeft().reader == if s.reader.Waiting? then Ended else s.reader
  {
    if s.finalized {} else {}
  }

  /** The application goes on after its last chunk. */
  predicate AsksOn(s: StreamState, op: Op) {
    (op.DoNext? && s.reader == Resting(0)) || (op.DoReader? && s.reader.Acking?)
  }

  /** A region that is no step of the application leaves a reader alone that is not parked. */
  lemma ReaderIsLeftAlone(s: StreamState, op: Op)
    requires Safe(s) && !s.reader.Waiting? && !op.DoNext? && !op.DoReader? && !op.DoReturn?
    ensures Apply(s, op).s.reader == s.reader
  {
    if !s.readClosed && Apply(s, op).s.readClosed {
      ClosingOutcome(s, op);
    } else {
      match op
      case DoSend(c) =>
      case DoChain => ChainLeavesReader(s);
      case DoSendOk =>
      case DoSendFailed => RefusalReadsOn(s);
      case DoClose =>
      case DoCloseDrained =>
      case DoEofSettled(ok) => EofReadsOn(s, ok);
      case DoAbort => AbortUntouched(s);
      case DoData(c) => if s.readClosed || s.status.Closed? {} else {}
      case DoControl(control) => ControlLeavesReader(s, control);
      case DoDisconnect(graceMs) => LeftUntouched(s);
      case DoReconnect =>
      case DoLeft => LeftUntouched(s);
      case DoTimer => LeftUntouched(s);
      case DoGreet =>
      case DoKeepAlive =>
    }
  }

  lemma ChainLeavesReader(s: StreamState)
    ensures s.ChainStep().reader == s.reader && s.ChainStep().items == s.items
  {
    match s.chain
    case AtPeer(c, again) => PeerTestBooks(s, c, again);
    case PeerWoken(c, again) => PeerTestBooks(s, c, again);
    case AtFlow(c) => WindowTestBooks(s, c);
    case AtSend(c) => if s.writeStatus.Shut? {} else {}
    case _ =>
  }

  lemma ControlLeavesReader(s: StreamState, control: Control)
    requires !s.reader.Waiting?
    ensures s.ReceiveControl(control).s.reader == s.reader
  {
    match control
    case Eof => EofUntouched(s);
    case Abort => RemoteAbortUntouched(s);
    case Ack(n) => if n <= 0 {} else {}
    case _ =>
  }

  /** Only what closes reading tells a parked reader that the stream is done. */
  lemma ParkedReaderEnds(s: StreamState, op: Op)
    requires Safe(s) && s.reader.Waiting?
    ensures Apply(s, op).s.reader.Ended? <==> op == DoControl(Eof) || LosesPeer(s, op)
  {
    StepSafe(s, op);
    ReadingCloses(s, op);
    if Apply(s, op).s.readClosed {
      ClosingOutcome(s, op);
      assert op.DoAbort? ==> !LosesPeer(s, op);
    }
  }

  /** The application of a stream is told that it is done in exactly these regions. */
  lemma ReaderEnds(s: StreamState, op: Op)
    requires Safe(s) && !s.reader.Ended?
    ensures Apply(s, op).s.reader.Ended? <==>
            || (s.reader.Waiting? && (op == DoControl(Eof) || LosesPeer(s, op)))
            || (s.readClosed && s.items == [] && AsksOn(s, op))
  {
    if s.reader.Waiting? {
      ParkedReaderEnds(s, op);
    } else if op.DoNext? || op.DoReader? {
      ReaderSteps(s);
    } else if op.DoReturn? {
    } else {
      ReaderIsLeftAlone(s, op);
    }
  }

  lemma ReaderSteps(s: StreamState)
    requires !s.reader.Ended?
    ensures s.Next().s.reader.Ended? <==> s.reader == Resting(0) && s.items == [] && s.readClosed
    ensures s.ReaderStep().reader.Ended? <==> s.reader.Acking? && s.items == [] && s.readClosed
  {
    match s.reader
    case Resting(n) =>
    case Acking =>
    case _ =>
  }

  // ----- whole runs -----

  /** The region of a run that closed reading, with the state it found. */
  datatype Ending = NotEnded | EndedBy(s: StreamState, op: Op)

  function EndingOf(s: StreamState, ops: seq<Op>): Ending
    decreases |ops|
  {
    if ops == [] then NotEnded
    else if !s.readClosed && Apply(s, ops[0]).s.readClosed then EndedBy(s, ops[0])
    else EndingOf(Apply(s, ops[0]).s, ops[1..])
  }

  /** Reading was closed without an eof, and without a parked reader that would have been told so. */
  predicate Silent(e: Ending) {
    e.EndedBy? && (LosesPeer(e.s, e.op) || (Aborts(e.op) && !e.s.reader.Waiting?))
  }

  /** The reader was told that the stream failed. */
  predicate Told(e: Ending) {
    e.EndedBy? && Aborts(e.op) && e.s.reader.Waiting?
  }

  lemma RejectedStays(s: StreamState, op: Op)
    requires Safe(s) && s.readClosed
    ensures Apply(s, op).s.reader.Rejected? <==> s.reader.Rejected?
  {
    if op.DoNext? || op.DoReader? {
      match s.reader
      case Resting(n) =>
      case Acking =>
      case _ =>
    } else if op.DoReturn? {
    } else {
      ReaderIsLeftAlone(s, op);
    }
  }

  lemma {:induction false} RejectedStaysOn(s: StreamState, ops: seq<Op>)
    requires Safe(s) && s.readClosed
    ensures Exec(s, ops).reader.Rejected? <==> s.reader.Rejected?
    decreases |ops|
  {
    if ops == [] {
    } else {
      StepSafe(s, ops[0]);
      StepForward(s, ops[0]);
      RejectedStays(s, ops[0]);
      RejectedStaysOn(Apply(s, ops[0]).s, ops[1..]);
    }
  }

  lemma {:induction false} EndingIsKnown(s: StreamState, ops: seq<Op>)
    requires Safe(s) && !s.readClosed
    ensures var t, e := Exec(s, ops), EndingOf(s, ops);
            && (t.readClosed <==> e.EndedBy?)
            && (e.EndedBy? ==> Safe(e.s) && !e.s.readClosed)
            && (e.EndedBy? ==> e.op == DoControl(Eof) || Aborts(e.op) || LosesPeer(e.s, e.op))
            && (t.reader.Rejected? <==> Told(e))
    decreases |ops|
  {
    if ops == [] {
    } else {
      var t := Apply(s, ops[0]).s;
      StepSafe(s, ops[0]);
      ReadingCloses(s, ops[0]);
      if t.readClosed {
        ClosingOutcome(s, ops[0]);
        ExecSafe(t, ops[1..]);
        RejectedStaysOn(t, ops[1..]);
      } else {
        EndingIsKnown(t, ops[1..]);
      }
    }
  }

  /**
   * Every run. Reading is closed by an eof, an abort or the loss of the peer; the application is
   * told of a failure exactly when an abort found it parked; and when it is told that the stream
   * is done although no eof closed it, the peer was lost for good, or an abort did not find it
   * parked.
   */
  lemma EveryEnding(window: nat, ops: seq<Op>)
    ensures var t, e := Exec(NewStream(window), ops), EndingOf(NewStream(window), ops);
            && (t.readClosed <==> e.EndedBy?)
            && (e.EndedBy? ==> e.op == DoControl(Eof) || Aborts(e.op) || LosesPeer(e.s, e.op))
            && (t.reader.Rejected? <==> Told(e))
            && (t.reader.Ended? ==> e.EndedBy? && (e.op == DoControl(Eof) || Silent(e)))
  {
    NewStreamSafe(window);
    EndingIsKnown(NewStream(window), ops);
    EveryRun(window, ops);
  }

  /** The steps of an application that reads on. */
  predicate Reads(ops: seq<Op>) {
    forall op :: op in ops ==> op.DoNext? || op.DoReader?
  }

  function ToRead(s: StreamState): nat {
    3 * |s.items| + match s.reader
                    case Resting(n) => if n > 0 then 2 else 1
                    case Acking => 1
                    case Resolved(_) => 3
                    case _ => 0
  }

  lemma ReadsFurther(s: StreamState, op: Op)
    requires Safe(s) && s.readClosed && op == (if s.reader.Resting? then DoNext else DoReader)
    requires s.reader.Resting? || s.reader.Acking? || s.reader.Resolved?
    ensures var t := Apply(s, op).s;
            && t.readClosed && Received(t) == Received(s) && ToRead(t) < ToRead(s)
            && (t.reader.Resting? || t.reader.Acking? || t.reader.Resolved? || t.reader.Ended?)
  {
    match s.reader
    case Resting(n) =>
      if n == 0 && s.items != [] {
        PullBooks(s);
      }
    case Acking => PullBooks(s);
    case Resolved(c) =>
    case _ =>
  }

  lemma {:induction false} ReadsOn(s: StreamState) returns (more: seq<Op>)
    requires Safe(s) && s.readClosed && !s.reader.Rejected? && !s.reader.Returned?
    ensures Reads(more)
    ensures Exec(s, more).reader.Ended? && Exec(s, more).yielded == Received(s)
    decreases ToRead(s)
  {
    if s.reader.Ended? {
      more := [];
    } else {
      var op := if s.reader.Resting? then DoNext else DoReader;
      StepSafe(s, op);
      ReadsFurther(s, op);
      var rest := ReadsOn(Apply(s, op).s);
      more := [op] + rest;
      ExecCons(s, op, rest);
    }
  }

  /**
   * Exactly when a stream that lost its eof ends as if it were complete: an application that has
   * not left its loop is given the rest of what arrived and then told that the stream is done,
   * after a silent ending; after any other it is never told so.
   */
  lemma EndsAsIfComplete(window: nat, ops: seq<Op>) returns (more: seq<Op>)
    requires var t, e := Exec(NewStream(window), ops), EndingOf(NewStream(window), ops);
             e.EndedBy? && e.op != DoControl(Eof) && !t.reader.Returned?
    ensures var t, e := Exec(NewStream(window), ops), EndingOf(NewStream(window), ops);
            && (Silent(e) ==> Reads(more) && Exec(t, more).reader.Ended? && Exec(t, more).yielded == Received(t))
            && (!Silent(e) ==> forall later :: !Exec(t, later).reader.Ended?)
  {
    EveryEnding(window, ops);
    EveryRun(window, ops);
    var t, e := Exec(NewStream(window), ops), EndingOf(NewStream(window), ops);
    if Silent(e) {
      SilentIsNotTold(e);
      more := ReadsOn(t);
    } else {
      more := [];
      forall later
        ensures !Exec(t, later).reader.Ended?
      {
        RejectedStaysOn(t, later);
      }
    }
  }

  lemma SilentIsNotTold(e: Ending)
    requires Silent(e)
    ensures !Told(e)
  {
  }
}
