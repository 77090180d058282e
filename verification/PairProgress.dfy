/**
 * A sender that is parked on the credit window: what is still to come for it.
 */
module PairProgress {
  import opened Bytes
  import opened StreamModel
  import opened StreamRuns
  import opened StreamPair
  import opened StreamBooks
  import opened PairCredit

  // ----- aborts under way -----

  predicate HasAbort(q: seq<Packet>) {
    exists i :: 0 <= i < |q| && q[i].frame == Ctl(Abort)
  }

  /** An abort under way comes from a stream that is closed. */
  ghost predicate AbortOrder(snd: Side, rcv: Side) {
    HasAbort(rcv.inbox) ==> snd.s.status.Closed?
  }

  ghost predicate Known(p: Pair) {
    Inv(p) && AbortOrder(p.a, p.b) && AbortOrder(p.b, p.a)
  }

  lemma ReceiveNeverAborts(s: StreamState, frame: Frame)
    ensures Abort !in Receive(s, frame).out
  {
  }

  lemma RegionAborts(s: StreamState, op: Op)
    requires IsLocal(op) && Abort in Apply(s, op).out
    ensures Apply(s, op).s.status.Closed?
  {
    match op
    case DoAbort =>
    case DoNext => if s.reader.Resting? {} else {}
    case DoReturn => if s.reader.Resting? {} else {}
    case DoGreet => if s.greeted {} else {}
    case DoKeepAlive => if s.status.Open? {} else {}
    case _ =>
  }

  lemma PostedAbort(link: Option<nat>, out: seq<Control>)
    ensures HasAbort(Post(link, out)) ==> Abort in out
  {
    PostFacts(link, out, 0);
  }

  /** Only a stream that closes says abort. */
  lemma AbortLeaves(me: Side, act: Act, net: Net)
    ensures var m := Move(me, act, net); HasAbort(m.sent) ==> m.me.s.status.Closed?
  {
    match act
    case Local(op) =>
      if IsLocal(op) {
        PostedAbort(me.link, Apply(me.s, op).out);
        if Abort in Apply(me.s, op).out { RegionAborts(me.s, op); }
      }
    case TakeEof => if TakesEof(me) { PostedAbort(me.link, me.s.EofSettled(true).out); }
    case Deliver(i) =>
      if Arrives(me, i) {
        PostedAbort(me.link, Receive(me.s, me.inbox[i].frame).out);
        ReceiveNeverAborts(me.s, me.inbox[i].frame);
      }
    case Bind(c) => PostedAbort(Some(c), me.s.PeerReconnected().out);
    case _ =>
  }

  lemma AbortInPart(q: seq<Packet>, r: seq<Packet>, i: nat)
    requires i < |q| && r == Without(q, i) && HasAbort(r)
    ensures HasAbort(q)
  {
    var k :| 0 <= k < |r| && r[k].frame == Ctl(Abort);
    assert q[if k < i then k else k + 1].frame == Ctl(Abort);
  }

  lemma MoveAborts(me: Side, other: Side, act: Act, net: Net)
    requires Safe(me.s) && AbortOrder(me, other) && AbortOrder(other, me)
    ensures var m := Move(me, act, net);
            AbortOrder(m.me, other.(inbox := other.inbox + m.sent)) && AbortOrder(other, m.me)
  {
    var m := Move(me, act, net);
    MoveSafe(me, act, net);
    AbortLeaves(me, act, net);
    if HasAbort(other.inbox + m.sent) {
      var k :| 0 <= k < |other.inbox + m.sent| && (other.inbox + m.sent)[k].frame == Ctl(Abort);
      if k < |other.inbox| {
        assert other.inbox[k].frame == Ctl(Abort);
      } else {
        assert m.sent[k - |other.inbox|].frame == Ctl(Abort);
      }
    }
    InboxAfter(me, act, net);
    if HasAbort(m.me.inbox) && Removed(me, act, net).Some? {
      AbortInPart(me.inbox, m.me.inbox, Removed(me, act, net).value);
    }
  }

  lemma TakeKnown(p: Pair, turn: Turn)
    requires Known(p)
    ensures Known(Take(p, turn))
  {
    TakeInv(p, turn);
    match turn
    case First(act) => MoveAborts(p.a, p.b, act, p.net);
    case Second(act) => MoveAborts(p.b, p.a, act, p.net);
  }

  lemma {:induction false} RunKnown(p: Pair, turns: seq<Turn>)
    requires Known(p)
    ensures Known(Run(p, turns))
    decreases |turns|
  {
    if turns == [] {
    } else {
      TakeKnown(p, turns[0]);
      RunKnown(Take(p, turns[0]), turns[1..]);
    }
  }

  lemma Reaches(start: Pair, turns: seq<Turn>)
    requires Opening(start)
    ensures Known(Run(start, turns))
  {
    OpeningInv(start);
    RunKnown(start, turns);
  }

  /** What arrives is an abort or an eof only if the sender has ended its stream or its half. */
  lemma NoSuchFrame(q: seq<Packet>, i: nat)
    requires i < |q|
    ensures !HasAbort(q) ==> q[i].frame != Ctl(Abort)
    ensures !HasEof(q) ==> q[i].frame != Ctl(Eof)
  {
  }

  // ----- what is to come -----

  /** The controls that wake whoever is parked on the window. */
  predicate Wakes(frame: Frame) {
    frame.Ctl? && (frame.control.Resume? || frame.control.Abort? || AckOf(frame.control) > 0)
  }

  ghost predicate WakeUnderWay(q: seq<Packet>, channel: nat) {
    exists i :: 0 <= i < |q| && q[i].channel == channel && Wakes(q[i].frame)
  }

  ghost predicate DataUnderWay(q: seq<Packet>, channel: nat) {
    exists i :: 0 <= i < |q| && q[i].channel == channel && q[i].frame.Data?
  }

  /** The receiver is bound to the channel, and its application has left the loop. */
  predicate Gone(rcv: Side, channel: nat) {
    rcv.link == Some(channel) && rcv.s.reader.Returned?
  }

  /**
   * A wake-up of the sender is under way, or data is, or the receiver holds bytes that it has
   * not acknowledged. Whether the last two lead to a wake-up is another question: see
   * `PairRelease.WokenExactly`.
   */
  ghost predicate CreditToCome(snd: Side, rcv: Side, channel: nat) {
    || WakeUnderWay(snd.inbox, channel)
    || DataUnderWay(rcv.inbox, channel)
    || (rcv.link == Some(channel) && Held(rcv.s) > 0)
  }

  /** A sender parked on the window, over a live channel, to a receiver that is open. */
  ghost predicate Parked(snd: Side, rcv: Side, net: Net) {
    snd.s.chain.FlowParked? && snd.link.Some? && net.Live(snd.link.value) && rcv.s.status.Open?
  }

  lemma {:induction false} SomeData(q: seq<Packet>, channel: nat)
    requires DataSize(q, channel) > 0
    ensures DataUnderWay(q, channel)
  {
    if q[0].channel == channel && q[0].frame.Data? {
    } else {
      SomeData(q[1..], channel);
      var i :| 0 <= i < |q[1..]| && q[1..][i].channel == channel && q[1..][i].frame.Data?;
      assert q[i + 1].channel == channel && q[i + 1].frame.Data?;
    }
  }

  lemma {:induction false} SomeAck(q: seq<Packet>, channel: nat)
    requires AckSize(q, channel) > 0
    ensures WakeUnderWay(q, channel)
  {
    if q[0].channel == channel && q[0].frame.Ctl? && AckOf(q[0].frame.control) > 0 {
      assert Wakes(q[0].frame);
    } else {
      SomeAck(q[1..], channel);
      var i :| 0 <= i < |q[1..]| && q[1..][i].channel == channel && Wakes(q[1..][i].frame);
      assert q[i + 1].channel == channel && Wakes(q[i + 1].frame);
    }
  }

  lemma ParkedHasCredit(snd: Side, rcv: Side, net: Net)
    requires NoLostWakeup(snd.s) && Credit(snd, rcv, net) && Parked(snd, rcv, net)
    ensures CreditToCome(snd, rcv, snd.link.value)
  {
    assert Debt(snd.s) > 0;
    var c := snd.link.value;
    if DataSize(rcv.inbox, c) > 0 {
      SomeData(rcv.inbox, c);
    } else if AckSize(snd.inbox, c) > 0 {
      SomeAck(snd.inbox, c);
    }
  }

  /**
   * In every run what a sender on a live channel is parked for is somewhere: as a wake-up or as
   * data under way, or held by its peer.
   */
  lemma ParkedSenderHasCreditToCome(start: Pair, turns: seq<Turn>)
    requires Opening(start)
    ensures var p := Run(start, turns);
            && (Parked(p.a, p.b, p.net) ==> CreditToCome(p.a, p.b, p.a.link.value))
            && (Parked(p.b, p.a, p.net) ==> CreditToCome(p.b, p.a, p.b.link.value))
  {
    Reaches(start, turns);
    var p := Run(start, turns);
    if Parked(p.a, p.b, p.net) {
      ParkedHasCredit(p.a, p.b, p.net);
    }
    if Parked(p.b, p.a, p.net) {
      ParkedHasCredit(p.b, p.a, p.net);
    }
  }
}
