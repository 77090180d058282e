/**
 * What becomes of the credit when the receiving stream closes: chunks that arrive are then
 * dropped and stay counted, so the sender has to hear of it.
 */
module PairEnd {
  import opened Bytes
  import opened StreamModel
  import opened StreamRuns
  import opened StreamPair
  import opened PairCredit
  import opened PairProgress
  import opened PairWakeup

  /** A stream ends by its own abort, by its peer's, because its peer has left, or when both halves are closed. */
  lemma HowStreamsEnd(s: StreamState, op: Op)
    requires Safe(s) && s.status.Open? && Apply(s, op).s.status.Closed?
    ensures var e := Apply(s, op);
            || (op.DoAbort? && e.out == [Abort])
            || op == DoControl(Abort)
            || e.s.connection.Disconnected?
            || (e.s.closer.CloseDone? && e.s.readClosed && (op == DoControl(Eof) || s.readClosed))
  {
    match op
    case DoAbort =>
    case DoLeft =>
    case DoTimer =>
    case DoDisconnect(graceMs) =>
    case DoSendFailed => RefusalEndsNothing(s);
    case DoEofSettled(ok) => EofEnds(s, ok);
    case DoControl(control) => ControlEnds(s, control);
    case DoSend(c) => if s.writeStatus.Writable? {} else {}
    case DoChain => ChainStaysOpen(s);
    case DoNext => ReadingEndsNothing(s);
    case DoReader => ReadingEndsNothing(s);
    case DoSendOk =>
    case DoClose =>
    case DoCloseDrained =>
    case DoData(c) =>
    case DoReconnect =>
    case DoReturn =>
    case DoGreet =>
    case DoKeepAlive =>
  }

  lemma RefusalEndsNothing(s: StreamState)
    requires s.status.Open?
    ensures s.SendFailed().status.Open?
  {
  }

  lemma ReadingEndsNothing(s: StreamState)
    ensures s.Next().s.status == s.status && s.ReaderStep().status == s.status
  {
    if s.reader.Acking? {} else {}
  }

  lemma EofEnds(s: StreamState, ok: bool)
    requires Safe(s) && s.status.Open? && s.EofSettled(ok).s.status.Closed?
    ensures s.EofSettled(ok).s.closer.CloseDone? && s.EofSettled(ok).s.readClosed && s.readClosed
  {
  }

  lemma ControlEnds(s: StreamState, control: Control)
    requires Safe(s) && s.status.Open? && s.ReceiveControl(control).s.status.Closed?
    ensures control.Abort? || (control.Eof? && s.closer.CloseDone? && s.ReceiveControl(control).s.closer.CloseDone?
                               && s.ReceiveControl(control).s.readClosed)
  {
    if s.writeStatus.Shut? {} else {}
  }

  lemma ChainStaysOpen(s: StreamState)
    ensures s.ChainStep().status == s.status
  {
    match s.chain
    case AtPeer(c, again) => if s.connection.Connected? {} else if s.status.Closed? {} else {}
    case AtFlow(c) => if s.Blocked(|c|) {} else if s.status.Closed? {} else {}
    case _ =>
  }

  /** A stream that is over keeps the reason why. */
  lemma EndedStays(s: StreamState, op: Op)
    requires s.status.Closed? && s.connection.Disconnected?
    ensures Apply(s, op).s.connection.Disconnected?
  {
    match op
    case DoSendFailed => if s.chain.Sending? {} else {}
    case DoChain => ChainKeepsConnection(s);
    case DoNext => ReaderKeepsConnection(s);
    case DoReader => ReaderKeepsConnection(s);
    case DoControl(control) => if control.Ack? && control.count > 0 {} else {}
    case _ =>
  }

  predicate AbortUnderWay(q: seq<Packet>, link: Option<nat>) {
    exists i :: 0 <= i < |q| && link == Some(q[i].channel) && q[i].frame == Ctl(Abort)
  }

  /** What an open sender can rely on when its receiver has closed. */
  ghost predicate Tells(p: Pair) {
    || p.a.s.status.Closed?
    || p.b.s.status.Open?
    || AbortUnderWay(p.a.inbox, p.a.link)
    || p.b.s.connection.Disconnected?
    || p.a.s.closer.CloseDone?
  }

  /** The channel lives and both sides are bound to it, whatever their streams are. */
  ghost predicate Linked(p: Pair) {
    p.a.link.Some? && p.net.Live(p.a.link.value) && p.b.link == p.a.link
  }

  lemma SenderMoveTells(p: Pair, act: Act)
    requires Known(p) && Linked(p) && Tells(p) && Linked(Do(p, act))
    ensures Tells(Do(p, act))
  {
    var q := Do(p, act);
    MoveSafe(p.a, act, p.net);
    StaysLinked(p.a, act, p.net);
    if AbortUnderWay(p.a.inbox, p.a.link) && q.a.s.status.Open? {
      var i :| 0 <= i < |p.a.inbox| && p.a.link == Some(p.a.inbox[i].channel) && p.a.inbox[i].frame == Ctl(Abort);
      AbortIsNotLost(p.a, act, p.net, i);
    }
  }

  /** An abort on the live channel stays under way until it arrives and closes the stream. */
  lemma AbortIsNotLost(me: Side, act: Act, net: Net, i: nat)
    requires Safe(me.s) && i < |me.inbox| && me.link == Some(me.inbox[i].channel) && me.inbox[i].frame == Ctl(Abort)
    requires net.Live(me.inbox[i].channel) && Move(me, act, net).me.s.status.Open?
    ensures AbortUnderWay(Move(me, act, net).me.inbox, me.link)
  {
    var q := Move(me, act, net).me.inbox;
    InboxAfter(me, act, net);
    match Removed(me, act, net)
    case None => assert q[i] == me.inbox[i];
    case Some(k) =>
      if k == i {
        MoveIsRegion(me, act, net);
        assert act.Deliver? && OpOf(me, act, net) == Some(DoControl(Abort));
        AbortCloses(me.s);
      } else {
        assert q[if i < k then i else i - 1] == me.inbox[i];
      }
  }

  lemma AbortCloses(s: StreamState)
    ensures Apply(s, DoControl(Abort)).s.status.Closed?
  {
    if s.finalized {} else {}
  }

  lemma ReceiverMoveTells(p: Pair, act: Act)
    requires Known(p) && Linked(p) && Tells(p) && Linked(Take(p, Second(act)))
    ensures Tells(Take(p, Second(act)))
  {
    var m := Move(p.b, act, p.net);
    var q := Take(p, Second(act));
    assert q.a == p.a.(inbox := p.a.inbox + m.sent);
    if AbortUnderWay(p.a.inbox, p.a.link) {
      var i :| 0 <= i < |p.a.inbox| && p.a.link == Some(p.a.inbox[i].channel) && p.a.inbox[i].frame == Ctl(Abort);
      assert q.a.inbox[i] == p.a.inbox[i];
    }
    MoveIsRegion(p.b, act, p.net);
    match OpOf(p.b, act, p.net)
    case None =>
    case Some(op) =>
      if p.b.s.status.Open? && q.b.s.status.Closed? && p.a.s.status.Open? {
        ReceiverEnds(p, act, op);
      } else if p.b.s.status.Closed? && p.b.s.connection.Disconnected? {
        EndedStays(p.b.s, op);
      } else if p.b.s.status.Closed? {
        MoveSafe(p.b, act, p.net);
      }
  }

  /** An open stream that aborts says so on the channel it is bound to. */
  lemma AbortIsPosted(p: Pair)
    requires Linked(p) && p.b.s.status.Open?
    ensures AbortUnderWay(Take(p, Second(Local(DoAbort))).a.inbox, p.a.link)
  {
    var sent := Post(p.b.link, [Abort]);
    assert sent == [Packet(p.b.link.value, Ctl(Abort))] + Post(p.b.link, [Abort][1..]);
    assert Take(p, Second(Local(DoAbort))).a.inbox == p.a.inbox + sent;
    assert (p.a.inbox + sent)[|p.a.inbox|] == Packet(p.b.link.value, Ctl(Abort));
  }

  lemma ReceiverEnds(p: Pair, act: Act, op: Op)
    requires Known(p) && Linked(p) && p.a.s.status.Open? && p.b.s.status.Open?
    requires OpOf(p.b, act, p.net) == Some(op) && Apply(p.b.s, op).s.status.Closed?
    ensures Tells(Take(p, Second(act)))
  {
    var q := Take(p, Second(act));
    MoveIsRegion(p.b, act, p.net);
    HowStreamsEnd(p.b.s, op);
    if op.DoAbort? {
      AbortIsPosted(p);
    } else if op.DoControl? {
      ControlArrived(p, act, op.control);
    }
  }

  /** A control that arrives is no abort, and an eof only if the sender has ended its half. */
  lemma ControlArrived(p: Pair, act: Act, control: Control)
    requires Known(p) && p.a.s.status.Open? && OpOf(p.b, act, p.net) == Some(DoControl(control))
    ensures control != Abort && (control == Eof ==> p.a.s.closer.CloseDone?)
  {
    assert p.b.inbox[act.index].frame == Ctl(control);
    NoSuchFrame(p.b.inbox, act.index);
  }

  ghost predicate LinkedThroughout(p: Pair, turns: seq<Turn>)
    decreases |turns|
  {
    Linked(p) && (turns == [] || LinkedThroughout(Take(p, turns[0]), turns[1..]))
  }

  /**
   * On a channel that both sides are bound to: when the receiver's stream has closed and the
   * sender's is still open, an abort is under way to the sender, or the receiver's stream took
   * its peer to have left, or the sender has already ended its own half.
   */
  lemma {:induction false} ClosedReceiverTells(p: Pair, turns: seq<Turn>)
    requires Known(p) && Tells(p) && LinkedThroughout(p, turns)
    ensures Tells(Run(p, turns))
    decreases |turns|
  {
    if turns == [] {
    } else {
      var q := Take(p, turns[0]);
      assert Linked(q) by {
        if turns[1..] == [] {}
      }
      TakeKnown(p, turns[0]);
      match turns[0] {
        case First(act) => SenderMoveTells(p, act);
        case Second(act) => ReceiverMoveTells(p, act);
      }
      ClosedReceiverTells(q, turns[1..]);
    }
  }

  /** A sender that is parked on the window has not ended its half: an abort is under way, or the receiver took it to have left. */
  lemma ParkedSenderHears(p: Pair, turns: seq<Turn>)
    requires Known(p) && Tells(p) && LinkedThroughout(p, turns)
    ensures var q := Run(p, turns);
            q.a.s.chain.FlowParked? && q.b.s.status.Closed? ==>
              AbortUnderWay(q.a.inbox, q.a.link) || q.b.s.connection.Disconnected?
  {
    ClosedReceiverTells(p, turns);
    RunKnown(p, turns);
  }
}
