/**
 * Credit is never leaked: whatever the interleaving of sends, reads, acknowledgements, late
 * flow:1, losses and reconnects, what a sender counts as unacknowledged is really still
 * somewhere on the way.
 */
module PairCredit {
  import opened Bytes
  import opened StreamModel
  import opened StreamRuns
  import opened StreamPair
  import opened StreamBooks

  /** A side is bound to a channel that exists, and an open side without a channel knows it. */
  ghost predicate Bound(me: Side, net: Net) {
    && (me.link.Some? ==> me.link.value < net.channels && me.link.value in me.had)
    && (forall i :: 0 <= i < |me.inbox| ==> me.inbox[i].channel < net.channels)
    && (me.s.status.Open? && me.link.None? ==> me.s.connection.Reconnecting?)
    && (forall c :: c in me.had ==> me.link == Some(c) || c in net.dead)
  }

  /** What a side sent is on the channel it is bound to, or on a dead one. */
  ghost predicate OnLink(snd: Side, rcv: Side, net: Net) {
    forall i :: 0 <= i < |rcv.inbox| ==> snd.link == Some(rcv.inbox[i].channel) || rcv.inbox[i].channel in net.dead
  }

  /** No data travels on the channel. */
  predicate Clear(q: seq<Packet>, channel: nat) {
    forall i :: 0 <= i < |q| && q[i].channel == channel ==> !q[i].frame.Data?
  }

  /** Whatever data is in front of an eof is on its channel, or on a dead one. */
  ghost predicate EofChannel(q: seq<Packet>, dead: set<nat>) {
    forall i, j :: 0 <= j < i < |q| && q[i].frame == Ctl(Eof) && q[j].frame.Data? ==>
      q[j].channel == q[i].channel || q[j].channel in dead
  }

  /**
   * An eof means that the sender is done: no data is behind it or left to come; and once it has
   * arrived, data is left on dead channels only.
   */
  ghost predicate EofOrder(snd: Side, rcv: Side, net: Net) {
    && (HasEof(rcv.inbox) ==> snd.s.closer.CloseDone?)
    && (rcv.s.readClosed && rcv.s.status.Open? ==>
          snd.s.closer.CloseDone? && forall c: nat :: net.Live(c) ==> Clear(rcv.inbox, c))
    && EofLast(rcv.inbox)
    && EofChannel(rcv.inbox, net.dead)
  }

  /** What is still on the way from snd, on a channel, and will come back as credit. */
  function OnTheWay(snd: Side, rcv: Side, channel: nat): nat {
    DataSize(rcv.inbox, channel) +
    if rcv.link == Some(channel) then Held(rcv.s) + AckSize(snd.inbox, channel) else 0
  }

  ghost predicate Credit(snd: Side, rcv: Side, net: Net) {
    snd.link.Some? && net.Live(snd.link.value) && snd.s.status.Open? && rcv.s.status.Open? ==>
      Debt(snd.s) <= OnTheWay(snd, rcv, snd.link.value)
  }

  ghost predicate Inv(p: Pair) {
    && Safe(p.a.s) && Safe(p.b.s)
    && Bound(p.a, p.net) && Bound(p.b, p.net)
    && OnLink(p.a, p.b, p.net) && OnLink(p.b, p.a, p.net)
    && EofOrder(p.a, p.b, p.net) && EofOrder(p.b, p.a, p.net)
    && Credit(p.a, p.b, p.net) && Credit(p.b, p.a, p.net)
  }

  // ----- a move is a region of one stream -----

  predicate Takes(me: Side) {
    me.s.chain.Sending? && me.link.Some? && me.via == me.link
  }

  predicate TakesEof(me: Side) {
    me.s.closer.SendingEof? && me.link.Some? && me.eofVia == me.link
  }

  /** The region a move runs, if it runs one. */
  function OpOf(me: Side, act: Act, net: Net): Option<Op> {
    match act
    case Local(op) => if IsLocal(op) then Some(op) else None
    case TakeData => if Takes(me) then Some(DoSendOk) else None
    case RefuseData => Some(DoSendFailed)
    case TakeEof => if TakesEof(me) then Some(DoEofSettled(true)) else None
    case RefuseEof => Some(DoEofSettled(false))
    case Deliver(i) =>
      if Arrives(me, i)
      then Some(match me.inbox[i].frame case Data(c) => DoData(c) case Ctl(control) => DoControl(control))
      else None
    case Unbind(graceMs) => Some(DoDisconnect(graceMs))
    case Bind(c) => if Binds(me, c, net) then Some(DoReconnect) else None
    case _ => None
  }

  lemma MoveIsRegion(me: Side, act: Act, net: Net)
    ensures Move(me, act, net).me.s ==
            match OpOf(me, act, net) case Some(op) => Apply(me.s, op).s case None => me.s
  {
  }

  lemma MoveSafe(me: Side, act: Act, net: Net)
    requires Safe(me.s)
    ensures Safe(Move(me, act, net).me.s) && Forward(me.s, Move(me, act, net).me.s)
  {
    MoveIsRegion(me, act, net);
    match OpOf(me, act, net)
    case Some(op) =>
      StepSafe(me.s, op);
      StepForward(me.s, op);
    case None =>
  }

  // ----- links and channels -----

  lemma PeerTestsKeepConnection(s: StreamState, c: Chunk, again: bool)
    ensures s.WaitForPeer(c, again).connection == s.connection && s.WaitForPeer(c, again).readClosed == s.readClosed
    ensures s.PeerResumed(c, again).connection == s.connection && s.PeerResumed(c, again).readClosed == s.readClosed
  {
    if s.connection.Connected? {} else if s.status.Closed? {} else {}
  }

  lemma FlowTestsKeepConnection(s: StreamState, c: Chunk)
    ensures s.HandOver(c).connection == s.connection && s.HandOver(c).readClosed == s.readClosed
    ensures s.WaitForFlowWindow(c).connection == s.connection && s.WaitForFlowWindow(c).readClosed == s.readClosed
  {
    if s.Blocked(|c|) {} else if s.writeStatus.Shut? {} else {}
  }

  lemma ChainKeepsConnection(s: StreamState)
    ensures s.ChainStep().connection == s.connection && s.ChainStep().readClosed == s.readClosed
  {
    match s.chain
    case AtPeer(c, again) => PeerTestsKeepConnection(s, c, again);
    case PeerWoken(c, again) => PeerTestsKeepConnection(s, c, again);
    case AtFlow(c) => FlowTestsKeepConnection(s, c);
    case AtSend(c) => FlowTestsKeepConnection(s, c);
    case _ =>
  }

  lemma ReaderKeepsConnection(s: StreamState)
    ensures s.Next().s.connection == s.connection && s.Next().s.readClosed == s.readClosed
    ensures s.ReaderStep().connection == s.connection && s.ReaderStep().readClosed == s.readClosed
  {
    assert s.Pull().connection == s.connection && s.Pull().readClosed == s.readClosed by {
      if s.items != [] {} else if s.readClosed {} else {}
    }
    match s.reader
    case Resting(n) => if n > 0 {} else {}
    case Acking =>
    case _ =>
  }

  lemma ControlKeepsConnection(s: StreamState, control: Control, ok: bool)
    ensures s.ReceiveControl(control).s.connection == s.connection
    ensures s.EofSettled(ok).s.connection == s.connection
  {
    if s.finalized {} else {}
  }

  lemma RefusalKeepsReconnecting(s: StreamState)
    ensures s.connection.Reconnecting? ==> s.SendFailed().connection.Reconnecting?
    ensures s.SendFailed().readClosed == s.readClosed
  {
    if s.chain.Sending? {
      if s.status.Closed? || s.writeStatus.Shut? {} else {}
    }
  }

  /** Only a reconnect ends the waiting of an open stream for its peer. */
  lemma StaysReconnecting(s: StreamState, op: Op)
    requires s.connection.Reconnecting? && !op.DoReconnect? && Apply(s, op).s.status.Open?
    ensures Apply(s, op).s.connection.Reconnecting?
  {
    match op
    case DoSend(c) =>
    case DoChain => ChainKeepsConnection(s);
    case DoSendOk =>
    case DoSendFailed => RefusalKeepsReconnecting(s);
    case DoClose =>
    case DoCloseDrained =>
    case DoEofSettled(ok) => ControlKeepsConnection(s, Ping, ok);
    case DoAbort =>
    case DoData(c) =>
    case DoControl(control) => ControlKeepsConnection(s, control, true);
    case DoDisconnect(graceMs) =>
    case DoLeft =>
    case DoTimer =>
    case DoNext => ReaderKeepsConnection(s);
    case DoReader => ReaderKeepsConnection(s);
    case DoReturn =>
    case DoGreet =>
    case DoKeepAlive =>
  }

  lemma StaysOpen(s: StreamState, op: Op)
    requires Safe(s) && Apply(s, op).s.status.Open?
    ensures s.status.Open?
  {
    StepForward(s, op);
  }

  /** A region that is not a reconnect keeps the binding. */
  lemma RegionBound(me: Side, op: Op, net: Net)
    requires Safe(me.s) && Bound(me, net) && !op.DoReconnect?
    ensures Bound(me.(s := Apply(me.s, op).s), net)
  {
    if Apply(me.s, op).s.status.Open? && me.link.None? {
      StaysOpen(me.s, op);
      StaysReconnecting(me.s, op);
    }
  }

  /** Whatever a move sends leaves on the channel that the side is then bound to. */
  lemma SentOnLink(me: Side, act: Act, net: Net)
    ensures var m := Move(me, act, net);
            forall i :: 0 <= i < |m.sent| ==> m.me.link == Some(m.sent[i].channel)
  {
    match act
    case Local(op) => PostFacts(me.link, Apply(me.s, op).out, 0);
    case TakeEof => PostFacts(me.link, me.s.EofSettled(true).out, 0);
    case Deliver(i) =>
      if Arrives(me, i) {
        PostFacts(me.link, Receive(me.s, me.inbox[i].frame).out, 0);
      }
    case Bind(c) => PostFacts(Some(c), me.s.PeerReconnected().out, 0);
    case _ =>
  }

  lemma UnbindBound(me: Side, graceMs: nat, net: Net)
    requires Safe(me.s) && Bound(me, net)
    ensures Bound(Move(me, Unbind(graceMs), net).me, Move(me, Unbind(graceMs), net).net)
  {
  }

  lemma BindBound(me: Side, c: nat, net: Net)
    requires Safe(me.s) && Bound(me, net)
    ensures Bound(Move(me, Bind(c), net).me, Move(me, Bind(c), net).net)
  {
  }

  lemma InboxBound(me: Side, i: nat, net: Net)
    requires Bound(me, net) && i < |me.inbox|
    ensures Bound(me.(inbox := Without(me.inbox, i)), net)
  {
  }

  lemma MoveBound(me: Side, act: Act, net: Net)
    requires Safe(me.s) && Bound(me, net)
    ensures Bound(Move(me, act, net).me, Move(me, act, net).net)
  {
    match act
    case Local(op) => if IsLocal(op) { RegionBound(me, op, net); }
    case TakeData => if Takes(me) { RegionBound(me, DoSendOk, net); }
    case RefuseData => RegionBound(me, DoSendFailed, net);
    case TakeEof => RegionBound(me, DoEofSettled(true), net);
    case RefuseEof => RegionBound(me, DoEofSettled(false), net);
    case Deliver(i) =>
      if Arrives(me, i) {
        RegionBound(me, OpOf(me, act, net).value, net);
        InboxBound(me.(s := Receive(me.s, me.inbox[i].frame).s), i, net);
      }
    case Drop(i) => if i < |me.inbox| { InboxBound(me, i, net); }
    case Unbind(graceMs) => UnbindBound(me, graceMs, net);
    case Bind(c) => BindBound(me, c, net);
    case Lose(c) =>
    case NewChannel =>
  }

  /** Channels are never taken back, and a dead one stays dead. */
  lemma NetGrows(me: Side, act: Act, net: Net)
    ensures var m := Move(me, act, net);
            && net.channels <= m.net.channels && net.dead <= m.net.dead
            && (forall c: nat :: m.net.Live(c) ==> net.Live(c) || c >= net.channels)
            && (me.link.Some? && me.link != m.me.link ==> me.link.value in m.net.dead)
  {
  }

  lemma SenderOnLink(me: Side, other: Side, act: Act, net: Net)
    requires OnLink(me, other, net)
    ensures OnLink(Move(me, act, net).me, other.(inbox := other.inbox + Move(me, act, net).sent), Move(me, act, net).net)
  {
    SentOnLink(me, act, net);
    NetGrows(me, act, net);
  }

  lemma ReceiverOnLink(me: Side, other: Side, act: Act, net: Net)
    requires OnLink(other, me, net)
    ensures OnLink(other, Move(me, act, net).me, Move(me, act, net).net)
  {
    InboxAfter(me, act, net);
    NetGrows(me, act, net);
  }

  // ----- eof -----

  lemma LocalNeverSaysEof(s: StreamState, op: Op)
    requires IsLocal(op)
    ensures Eof !in Apply(s, op).out
  {
    match op
    case DoNext => if s.reader.Resting? {}
    case _ =>
  }

  lemma ReceiveNeverSaysEof(s: StreamState, frame: Frame)
    ensures Eof !in Receive(s, frame).out
  {
  }

  /** Eof leaves only when close is done. */
  lemma EofLeaves(me: Side, act: Act, net: Net)
    ensures var m := Move(me, act, net); HasEof(m.sent) ==> m.me.s.closer.CloseDone?
  {
    match act
    case Local(op) =>
      if IsLocal(op) {
        PostFacts(me.link, Apply(me.s, op).out, 0);
        LocalNeverSaysEof(me.s, op);
      }
    case TakeEof => if TakesEof(me) { PostFacts(me.link, me.s.EofSettled(true).out, 0); }
    case Deliver(i) =>
      if Arrives(me, i) {
        PostFacts(me.link, Receive(me.s, me.inbox[i].frame).out, 0);
        ReceiveNeverSaysEof(me.s, me.inbox[i].frame);
      }
    case Bind(c) => PostFacts(Some(c), me.s.PeerReconnected().out, 0);
    case _ =>
  }

  predicate NoData(sent: seq<Packet>) {
    DataChunks(sent) == [] && forall i :: 0 <= i < |sent| ==> !sent[i].frame.Data?
  }

  lemma PostedNoData(link: Option<nat>, out: seq<Control>)
    ensures NoData(Post(link, out))
  {
    PostFacts(link, out, 0);
  }

  /** Data leaves only when the transport takes it. */
  lemma DataLeaves(me: Side, act: Act, net: Net)
    ensures var sent := Move(me, act, net).sent;
            if act.TakeData? && Takes(me) then sent == [Packet(me.link.value, Data(me.s.chain.chunk))] else NoData(sent)
  {
    match act
    case Local(op) => if IsLocal(op) { PostedNoData(me.link, Apply(me.s, op).out); }
    case TakeData => if Takes(me) {} else {}
    case TakeEof => if TakesEof(me) { PostedNoData(me.link, me.s.EofSettled(true).out); }
    case Deliver(i) => if Arrives(me, i) { PostedNoData(me.link, Receive(me.s, me.inbox[i].frame).out); }
    case Bind(c) => PostedNoData(Some(c), me.s.PeerReconnected().out);
    case RefuseData =>
    case RefuseEof =>
    case Drop(i) =>
    case Lose(c) =>
    case Unbind(graceMs) =>
    case NewChannel =>
  }

  lemma SentKinds(me: Side, act: Act, net: Net)
    ensures var m := Move(me, act, net);
            && (HasEof(m.sent) ==> m.me.s.closer.CloseDone?)
            && (act.TakeData? && Takes(me) ==> m.sent == [Packet(me.link.value, Data(me.s.chain.chunk))])
            && (!(act.TakeData? && Takes(me)) ==>
                  DataChunks(m.sent) == [] && forall i :: 0 <= i < |m.sent| ==> !m.sent[i].frame.Data?)
  {
    EofLeaves(me, act, net);
    DataLeaves(me, act, net);
  }

  lemma HasEofAppend(q: seq<Packet>, r: seq<Packet>)
    ensures HasEof(q + r) <==> HasEof(q) || HasEof(r)
  {
    if HasEof(q) {
      var i :| 0 <= i < |q| && q[i].frame == Ctl(Eof);
      assert (q + r)[i].frame == Ctl(Eof);
    }
    if HasEof(r) {
      var i :| 0 <= i < |r| && r[i].frame == Ctl(Eof);
      assert (q + r)[|q| + i].frame == Ctl(Eof);
    }
  }

  lemma {:induction false} NoDataChunks(q: seq<Packet>)
    ensures DataChunks(q) == [] <==> forall i :: 0 <= i < |q| ==> !q[i].frame.Data?
  {
    if q != [] {
      NoDataChunks(q[1..]);
      if DataChunks(q) == [] {
        forall i | 0 <= i < |q|
          ensures !q[i].frame.Data?
        {
          if i > 0 {
            assert q[i] == q[1..][i - 1];
          }
        }
      }
    }
  }

  /** A packet that is appended by a sender bound to its channel. */
  lemma EofChannelGrows(q: seq<Packet>, r: seq<Packet>, link: Option<nat>, dead: set<nat>, more: set<nat>)
    requires EofChannel(q, dead) && dead <= more
    requires forall i :: 0 <= i < |q| ==> link == Some(q[i].channel) || q[i].channel in more
    requires |r| <= 1 || forall k :: 0 <= k < |r| ==> r[k].frame != Ctl(Eof)
    requires forall k :: 0 <= k < |r| && r[k].frame == Ctl(Eof) ==> link == Some(r[k].channel)
    requires HasEof(q) ==> forall k :: 0 <= k < |r| ==> !r[k].frame.Data?
    ensures EofChannel(q + r, more)
  {
    var s := q + r;
    forall i, j | 0 <= j < i < |s| && s[i].frame == Ctl(Eof) && s[j].frame.Data?
      ensures s[j].channel == s[i].channel || s[j].channel in more
    {
      if i < |q| {
        assert q[i].frame == Ctl(Eof) && q[j].frame.Data?;
      } else {
        assert s[i] == r[i - |q|];
        assert j < |q|;
      }
    }
  }

  /** At most one frame of a move is an eof, and then it is the only one. */
  lemma EofAlone(me: Side, act: Act, net: Net)
    ensures var sent := Move(me, act, net).sent; |sent| <= 1 || forall k :: 0 <= k < |sent| ==> sent[k].frame != Ctl(Eof)
  {
    var sent := Move(me, act, net).sent;
    match act
    case TakeEof =>
      if TakesEof(me) {
        assert [Eof][1..] == [];
        assert Post(me.link, [Eof]) == [Packet(me.link.value, Ctl(Eof))] + Post(me.link, [Eof][1..]);
      }
    case Local(op) =>
      if IsLocal(op) {
        PostFacts(me.link, Apply(me.s, op).out, 0);
        LocalNeverSaysEof(me.s, op);
      }
    case Deliver(i) =>
      if Arrives(me, i) {
        PostFacts(me.link, Receive(me.s, me.inbox[i].frame).out, 0);
        ReceiveNeverSaysEof(me.s, me.inbox[i].frame);
      }
    case Bind(c) => PostFacts(Some(c), me.s.PeerReconnected().out, 0);
    case _ =>
  }

  lemma SenderEofChannel(me: Side, other: Side, act: Act, net: Net)
    requires Safe(me.s) && EofOrder(me, other, net) && OnLink(me, other, net)
    ensures EofChannel(other.inbox + Move(me, act, net).sent, Move(me, act, net).net.dead)
  {
    var m := Move(me, act, net);
    SenderOnLink(me, other, act, net);
    SentOnLink(me, act, net);
    SentKinds(me, act, net);
    EofAlone(me, act, net);
    NetGrows(me, act, net);
    assert forall i :: 0 <= i < |other.inbox| ==> (other.inbox + m.sent)[i] == other.inbox[i];
    EofChannelGrows(other.inbox, m.sent, m.me.link, net.dead, m.net.dead);
  }

  lemma StaysClear(q: seq<Packet>, r: seq<Packet>, c: nat)
    requires Clear(q, c) && forall k :: 0 <= k < |r| ==> !r[k].frame.Data?
    ensures Clear(q + r, c)
  {
  }

  /** A sender that has not sent eof may send data; one that has, sends none. */
  lemma SenderEofOrder(me: Side, other: Side, act: Act, net: Net)
    requires Safe(me.s) && EofOrder(me, other, net) && OnLink(me, other, net) && Bound(other, net)
    ensures var m := Move(me, act, net);
            EofOrder(m.me, other.(inbox := other.inbox + m.sent), m.net)
  {
    var m := Move(me, act, net);
    MoveSafe(me, act, net);
    SentKinds(me, act, net);
    NetGrows(me, act, net);
    HasEofAppend(other.inbox, m.sent);
    SenderEofChannel(me, other, act, net);
    if other.s.readClosed && other.s.status.Open? {
      assert !(act.TakeData? && Takes(me));
      forall c: nat | m.net.Live(c)
        ensures Clear(other.inbox + m.sent, c)
      {
        StaysClear(other.inbox, m.sent, c);
      }
    }
    if act.TakeData? && Takes(me) {
      assert !HasEof(other.inbox);
    }
  }

  /** An open stream stops reading only when an eof arrives. */
  lemma ReadClosedByEof(s: StreamState, op: Op)
    requires !s.readClosed && Apply(s, op).s.readClosed && Apply(s, op).s.status.Open?
    ensures op == DoControl(Eof)
  {
    match op
    case DoSend(c) =>
    case DoChain => ChainKeepsConnection(s);
    case DoSendOk =>
    case DoSendFailed => RefusalKeepsReconnecting(s);
    case DoClose =>
    case DoCloseDrained =>
    case DoEofSettled(ok) => if ok {} else {}
    case DoAbort =>
    case DoData(c) =>
    case DoControl(control) => ReadClosedByControl(s, control);
    case DoDisconnect(graceMs) =>
    case DoReconnect =>
    case DoLeft =>
    case DoTimer =>
    case DoNext => ReaderKeepsConnection(s);
    case DoReader => ReaderKeepsConnection(s);
    case DoReturn =>
    case DoGreet =>
    case DoKeepAlive =>
  }

  lemma ReadClosedByControl(s: StreamState, control: Control)
    requires !s.readClosed && s.ReceiveControl(control).s.readClosed && s.ReceiveControl(control).s.status.Open?
    ensures control == Eof
  {
    match control
    case Abort =>
    case Ack(n) =>
    case _ =>
  }

  lemma WithoutFacts(q: seq<Packet>, i: nat)
    requires i < |q|
    ensures var r := Without(q, i);
            && (HasEof(r) ==> HasEof(q))
            && (EofLast(q) ==> EofLast(r))
            && (DataChunks(q) == [] ==> DataChunks(r) == [])
  {
    var r := Without(q, i);
    forall k | 0 <= k < |r|
      ensures r[k] == q[if k < i then k else k + 1]
    {
    }
    if HasEof(r) {
      var k :| 0 <= k < |r| && r[k].frame == Ctl(Eof);
      assert q[if k < i then k else k + 1].frame == Ctl(Eof);
    }
    NoDataChunks(q);
    NoDataChunks(r);
  }

  lemma WithoutChannels(q: seq<Packet>, i: nat, dead: set<nat>)
    requires i < |q| && EofChannel(q, dead)
    ensures EofChannel(Without(q, i), dead)
    ensures forall c :: Clear(q, c) ==> Clear(Without(q, i), c)
  {
    var r := Without(q, i);
    forall k | 0 <= k < |r|
      ensures r[k] == q[if k < i then k else k + 1]
    {
    }
  }

  /** What a move leaves in its inbox: all of it, or all but one packet. */
  function Removed(me: Side, act: Act, net: Net): Option<nat> {
    match act
    case Deliver(i) => if Arrives(me, i) then Some(i) else None
    case Drop(i) => if i < |me.inbox| && me.inbox[i].channel in net.dead then Some(i) else None
    case _ => None
  }

  lemma InboxAfter(me: Side, act: Act, net: Net)
    ensures var q := Move(me, act, net).me.inbox;
            match Removed(me, act, net)
            case None => q == me.inbox
            case Some(i) => i < |me.inbox| && q == Without(me.inbox, i)
  {
  }

  /** What a move leaves in its inbox is part of what was there. */
  lemma InboxShrinks(me: Side, act: Act, net: Net)
    requires EofChannel(me.inbox, net.dead)
    ensures var q := Move(me, act, net).me.inbox;
            && (HasEof(q) ==> HasEof(me.inbox))
            && (EofLast(me.inbox) ==> EofLast(q))
            && (DataChunks(me.inbox) == [] ==> DataChunks(q) == [])
            && EofChannel(q, net.dead)
            && forall c :: Clear(me.inbox, c) ==> Clear(q, c)
  {
    InboxAfter(me, act, net);
    if Removed(me, act, net).Some? {
      WithoutFacts(me.inbox, Removed(me, act, net).value);
      WithoutChannels(me.inbox, Removed(me, act, net).value, net.dead);
    }
  }

  /** When an eof arrives, data is left on dead channels only. */
  lemma EofClears(q: seq<Packet>, i: nat, net: Net, c: nat)
    requires i < |q| && q[i].frame == Ctl(Eof) && InTurn(q, i)
    requires EofLast(q) && EofChannel(q, net.dead) && net.Live(c)
    ensures Clear(Without(q, i), c)
  {
    var r := Without(q, i);
    forall k | 0 <= k < |r| && r[k].channel == c
      ensures !r[k].frame.Data?
    {
      assert r[k] == q[if k < i then k else k + 1];
    }
  }

  lemma NewIsClear(me: Side, net: Net, c: nat)
    requires Bound(me, net) && c >= net.channels
    ensures Clear(me.inbox, c)
  {
  }

  lemma EofChannelMore(q: seq<Packet>, dead: set<nat>, more: set<nat>)
    requires EofChannel(q, dead) && dead <= more
    ensures EofChannel(q, more)
  {
  }

  lemma ReceiverEofOrder(me: Side, other: Side, act: Act, net: Net)
    requires Safe(me.s) && EofOrder(other, me, net) && Bound(me, net)
    ensures EofOrder(other, Move(me, act, net).me, Move(me, act, net).net)
  {
    var m := Move(me, act, net);
    MoveSafe(me, act, net);
    MoveIsRegion(me, act, net);
    InboxShrinks(me, act, net);
    NetGrows(me, act, net);
    EofChannelMore(m.me.inbox, net.dead, m.net.dead);
    if m.me.s.readClosed && m.me.s.status.Open? {
      if me.s.readClosed {
        ClearStays(me, m.me, net, m.net);
      } else {
        ReadClosedByEof(me.s, OpOf(me, act, net).value);
        EofArrived(me, other, act, net);
      }
    }
  }

  lemma ClearStays(me: Side, t: Side, net: Net, later: Net)
    requires Bound(me, net) && forall c: nat :: net.Live(c) ==> Clear(me.inbox, c)
    requires forall c :: Clear(me.inbox, c) ==> Clear(t.inbox, c)
    requires forall c: nat :: later.Live(c) ==> net.Live(c) || c >= net.channels
    ensures forall c: nat :: later.Live(c) ==> Clear(t.inbox, c)
  {
    forall c: nat | later.Live(c)
      ensures Clear(t.inbox, c)
    {
      if c >= net.channels {
        NewIsClear(me, net, c);
      }
    }
  }

  lemma EofArrived(me: Side, other: Side, act: Act, net: Net)
    requires EofOrder(other, me, net) && OpOf(me, act, net) == Some(DoControl(Eof))
    ensures var m := Move(me, act, net);
            other.s.closer.CloseDone? && forall c: nat :: m.net.Live(c) ==> Clear(m.me.inbox, c)
  {
    var i := act.index;
    assert me.inbox[i].frame == Ctl(Eof);
    assert HasEof(me.inbox);
    var m := Move(me, act, net);
    assert m.net == net && m.me.inbox == Without(me.inbox, i);
    forall c: nat | net.Live(c)
      ensures Clear(m.me.inbox, c)
    {
      EofClears(me.inbox, i, net, c);
    }
  }

  // ----- credit -----

  /** A region of the sender that keeps its debt keeps the credit, whatever controls it posts. */
  lemma SenderRegionCredit(snd: Side, rcv: Side, e: Effect, net: Net)
    requires Credit(snd, rcv, net)
    requires DebtKept(snd.s, e.s) && Forward(snd.s, e.s)
    ensures Credit(snd.(s := e.s), rcv.(inbox := rcv.inbox + Post(snd.link, e.out)), net)
  {
    if snd.link.Some? {
      PostFacts(snd.link, e.out, snd.link.value);
      DataSizeAppend(rcv.inbox, Post(snd.link, e.out), snd.link.value);
    }
  }

  /** A region of the receiver turns what it held into acknowledgements. */
  lemma ReceiverRegionCredit(snd: Side, rcv: Side, e: Effect, net: Net)
    requires Credit(snd, rcv, net)
    requires HeldKept(rcv.s, e) && Forward(rcv.s, e.s)
    ensures Credit(snd.(inbox := snd.inbox + Post(rcv.link, e.out)), rcv.(s := e.s), net)
  {
    if snd.link.Some? {
      PostFacts(rcv.link, e.out, snd.link.value);
      AckSizeAppend(snd.inbox, Post(rcv.link, e.out), snd.link.value);
    }
  }

  /** A packet that leaves the way takes its own bytes with it, and no others. */
  lemma WithoutSize(q: seq<Packet>, i: nat, c: nat)
    requires i < |q|
    ensures DataSize(q, c) ==
            DataSize(Without(q, i), c) + if q[i].channel == c && q[i].frame.Data? then |q[i].frame.chunk| else 0
    ensures AckSize(q, c) ==
            AckSize(Without(q, i), c) + if q[i].channel == c && q[i].frame.Ctl? then AckOf(q[i].frame.control) else 0
  {
    var x, y := q[..i], q[i + 1..];
    assert q == x + ([q[i]] + y);
    DataSizeAppend(x, [q[i]] + y, c);
    DataSizeAppend(x, y, c);
    AckSizeAppend(x, [q[i]] + y, c);
    AckSizeAppend(x, y, c);
    assert ([q[i]] + y)[1..] == y;
  }

  lemma SenderTakesCredit(me: Side, other: Side, net: Net)
    requires Takes(me) && WithinWindow(me.s) && Credit(me, other, net)
    ensures Credit(me.(s := me.s.SendOk()),
                   other.(inbox := other.inbox + [Packet(me.link.value, Data(me.s.chain.chunk))]), net)
  {
    var packet := Packet(me.link.value, Data(me.s.chain.chunk));
    SendBooks(me.s);
    DataSizeAppend(other.inbox, [packet], me.link.value);
    assert [packet][1..] == [];
  }

  lemma ReceiverTakesCredit(me: Side, other: Side, net: Net)
    requires Takes(me) && WithinWindow(me.s) && Credit(other, me, net)
    ensures Credit(other.(inbox := other.inbox + [Packet(me.link.value, Data(me.s.chain.chunk))]),
                   me.(s := me.s.SendOk()), net)
  {
    var packet := Packet(me.link.value, Data(me.s.chain.chunk));
    SendBooks(me.s);
    if other.link.Some? {
      AckSizeAppend(other.inbox, [packet], other.link.value);
      assert [packet][1..] == [];
    }
  }

  /** An arriving acknowledgement leaves the way and settles debt. */
  lemma SenderArrivalCredit(me: Side, other: Side, i: nat, net: Net)
    requires Safe(me.s) && Arrives(me, i) && Credit(me, other, net)
    ensures var e := Receive(me.s, me.inbox[i].frame);
            Credit(me.(s := e.s, inbox := Without(me.inbox, i)),
                   other.(inbox := other.inbox + Post(me.link, e.out)), net)
  {
    var e := Receive(me.s, me.inbox[i].frame);
    PostFacts(me.link, e.out, me.link.value);
    DataSizeAppend(other.inbox, Post(me.link, e.out), me.link.value);
    WithoutSize(me.inbox, i, me.link.value);
    match me.inbox[i].frame
    case Data(c) =>
      DataBooks(me.s, c);
      StepForward(me.s, DoData(c));
    case Ctl(control) =>
      ControlBooks(me.s, control);
      StepForward(me.s, DoControl(control));
  }

  /** An arriving frame that is held or acknowledged to just the extent it was on the way keeps the credit. */
  lemma ArrivalRegionCredit(snd: Side, rcv: Side, i: nat, e: Effect, net: Net)
    requires Arrives(rcv, i) && Credit(snd, rcv, net) && Forward(rcv.s, e.s)
    requires e.s.status.Open? && snd.link == rcv.link && net.Live(rcv.link.value) ==>
               Held(e.s) + AckSum(e.out) == Held(rcv.s) + if rcv.inbox[i].frame.Data? then |rcv.inbox[i].frame.chunk| else 0
    ensures Credit(snd.(inbox := snd.inbox + Post(rcv.link, e.out)), rcv.(s := e.s, inbox := Without(rcv.inbox, i)), net)
  {
    if snd.link.Some? {
      PostFacts(rcv.link, e.out, snd.link.value);
      AckSizeAppend(snd.inbox, Post(rcv.link, e.out), snd.link.value);
      WithoutSize(rcv.inbox, i, snd.link.value);
    }
  }

  /** An arriving chunk leaves the way and is held. */
  lemma ChunkArrivalCredit(me: Side, other: Side, i: nat, c: Chunk, net: Net)
    requires Safe(me.s) && Arrives(me, i) && me.inbox[i].frame == Data(c)
    requires EofOrder(other, me, net) && Credit(other, me, net)
    ensures Credit(other.(inbox := other.inbox + Post(me.link, [])),
                   me.(s := me.s.ReceiveData(c), inbox := Without(me.inbox, i)), net)
  {
    DataBooks(me.s, c);
    StepForward(me.s, DoData(c));
    assert net.Live(me.link.value) ==> !Clear(me.inbox, me.link.value);
    SumNone();
    ArrivalRegionCredit(other, me, i, Effect(me.s.ReceiveData(c), []), net);
  }

  lemma SumNone()
    ensures AckSum([]) == 0
  {
  }

  lemma ReceiverArrivalCredit(me: Side, other: Side, i: nat, net: Net)
    requires Safe(me.s) && Arrives(me, i) && EofOrder(other, me, net) && Credit(other, me, net)
    ensures var e := Receive(me.s, me.inbox[i].frame);
            Credit(other.(inbox := other.inbox + Post(me.link, e.out)),
                   me.(s := e.s, inbox := Without(me.inbox, i)), net)
  {
    match me.inbox[i].frame
    case Data(c) => ChunkArrivalCredit(me, other, i, c, net);
    case Ctl(control) =>
      ControlBooks(me.s, control);
      ControlForward(me.s, control);
      ArrivalRegionCredit(other, me, i, me.s.ReceiveControl(control), net);
  }

  /** The moves that change the network rather than the stream. */
  predicate IsNetwork(act: Act) {
    act.Drop? || act.Lose? || act.Unbind? || act.NewChannel? || act.Bind?
  }

  lemma SenderBindCredit(me: Side, other: Side, c: nat, net: Net)
    requires Safe(me.s) && Bound(me, net) && Credit(me, other, net)
    ensures var m := Move(me, Bind(c), net);
            Credit(m.me, other.(inbox := other.inbox + m.sent), m.net)
  {
    assert other.inbox + [] == other.inbox;
    ReconnectBooks(me.s);
  }

  lemma SenderNetworkCredit(me: Side, other: Side, act: Act, net: Net)
    requires IsNetwork(act)
    requires Safe(me.s) && Bound(me, net) && Credit(me, other, net)
    ensures var m := Move(me, act, net);
            Credit(m.me, other.(inbox := other.inbox + m.sent), m.net)
  {
    assert other.inbox + [] == other.inbox;
    match act
    case Drop(i) =>
      if i < |me.inbox| && me.link.Some? {
        WithoutSize(me.inbox, i, me.link.value);
      }
    case Bind(c) => SenderBindCredit(me, other, c, net);
    case Lose(c) =>
    case Unbind(graceMs) =>
    case NewChannel =>
  }

  lemma ReceiverBindCredit(me: Side, other: Side, c: nat, net: Net)
    requires Safe(me.s) && Bound(me, net) && Bound(other, net) && Credit(other, me, net)
    ensures var m := Move(me, Bind(c), net);
            Credit(other.(inbox := other.inbox + m.sent), m.me, m.net)
  {
    assert other.inbox + [] == other.inbox;
    ReconnectBooks(me.s);
    StepForward(me.s, DoReconnect);
    if other.link.Some? {
      var out := me.s.PeerReconnected().out;
      PostFacts(Some(c), out, other.link.value);
      AckSizeAppend(other.inbox, Post(Some(c), out), other.link.value);
    }
  }

  lemma ReceiverUnbindCredit(me: Side, other: Side, graceMs: nat, net: Net)
    requires Safe(me.s) && Credit(other, me, net)
    ensures var m := Move(me, Unbind(graceMs), net);
            Credit(other.(inbox := other.inbox + m.sent), m.me, m.net)
  {
    assert other.inbox + [] == other.inbox;
    StepForward(me.s, DoDisconnect(graceMs));
  }

  lemma ReceiverNetworkCredit(me: Side, other: Side, act: Act, net: Net)
    requires IsNetwork(act)
    requires Safe(me.s) && Bound(me, net) && Bound(other, net) && Credit(other, me, net)
    ensures var m := Move(me, act, net);
            Credit(other.(inbox := other.inbox + m.sent), m.me, m.net)
  {
    assert other.inbox + [] == other.inbox;
    match act
    case Drop(i) =>
      if i < |me.inbox| && other.link.Some? {
        WithoutSize(me.inbox, i, other.link.value);
      }
    case Bind(c) => ReceiverBindCredit(me, other, c, net);
    case Unbind(graceMs) => ReceiverUnbindCredit(me, other, graceMs, net);
    case Lose(c) =>
    case NewChannel =>
  }

  lemma SenderLocalCredit(me: Side, other: Side, op: Op, net: Net)
    requires IsLocal(op) && Safe(me.s) && Credit(me, other, net)
    ensures var m := Move(me, Local(op), net);
            Credit(m.me, other.(inbox := other.inbox + m.sent), m.net)
  {
    LocalBooks(me.s, op);
    StepForward(me.s, op);
    SenderRegionCredit(me, other, Apply(me.s, op), net);
  }

  lemma SenderSettledCredit(me: Side, other: Side, act: Act, net: Net)
    requires act.RefuseData? || act.TakeEof? || act.RefuseEof?
    requires Safe(me.s) && Credit(me, other, net)
    ensures var m := Move(me, act, net);
            Credit(m.me, other.(inbox := other.inbox + m.sent), m.net)
  {
    assert other.inbox + [] == other.inbox;
    match act
    case RefuseData =>
      SendBooks(me.s);
      StepForward(me.s, DoSendFailed);
    case TakeEof =>
      CloseBooks(me.s, true);
      StepForward(me.s, DoEofSettled(true));
      SenderRegionCredit(me, other, me.s.EofSettled(true), net);
    case RefuseEof =>
      CloseBooks(me.s, false);
      StepForward(me.s, DoEofSettled(false));
  }

  lemma SenderCredit(me: Side, other: Side, act: Act, net: Net)
    requires Safe(me.s) && Bound(me, net) && Credit(me, other, net)
    ensures var m := Move(me, act, net);
            Credit(m.me, other.(inbox := other.inbox + m.sent), m.net)
  {
    assert other.inbox + [] == other.inbox;
    match act
    case Local(op) => if IsLocal(op) { SenderLocalCredit(me, other, op, net); }
    case TakeData => if Takes(me) { SenderTakesCredit(me, other, net); }
    case Deliver(i) => if Arrives(me, i) { SenderArrivalCredit(me, other, i, net); }
    case RefuseData => SenderSettledCredit(me, other, act, net);
    case TakeEof => SenderSettledCredit(me, other, act, net);
    case RefuseEof => SenderSettledCredit(me, other, act, net);
    case _ => SenderNetworkCredit(me, other, act, net);
  }

  lemma ReceiverLocalCredit(me: Side, other: Side, op: Op, net: Net)
    requires IsLocal(op) && Safe(me.s) && Credit(other, me, net)
    ensures var m := Move(me, Local(op), net);
            Credit(other.(inbox := other.inbox + m.sent), m.me, m.net)
  {
    LocalBooks(me.s, op);
    StepForward(me.s, op);
    ReceiverRegionCredit(other, me, Apply(me.s, op), net);
  }

  lemma ReceiverSettledCredit(me: Side, other: Side, act: Act, net: Net)
    requires act.RefuseData? || act.TakeEof? || act.RefuseEof?
    requires Safe(me.s) && Credit(other, me, net)
    ensures var m := Move(me, act, net);
            Credit(other.(inbox := other.inbox + m.sent), m.me, m.net)
  {
    assert other.inbox + [] == other.inbox;
    match act
    case RefuseData =>
      SendBooks(me.s);
      StepForward(me.s, DoSendFailed);
    case TakeEof =>
      CloseBooks(me.s, true);
      StepForward(me.s, DoEofSettled(true));
      ReceiverRegionCredit(other, me, me.s.EofSettled(true), net);
    case RefuseEof =>
      CloseBooks(me.s, false);
      StepForward(me.s, DoEofSettled(false));
  }

  lemma ReceiverCredit(me: Side, other: Side, act: Act, net: Net)
    requires Safe(me.s) && Bound(me, net) && Bound(other, net)
    requires EofOrder(other, me, net) && Credit(other, me, net)
    ensures var m := Move(me, act, net);
            Credit(other.(inbox := other.inbox + m.sent), m.me, m.net)
  {
    assert other.inbox + [] == other.inbox;
    match act
    case Local(op) => if IsLocal(op) { ReceiverLocalCredit(me, other, op, net); }
    case TakeData => if Takes(me) { ReceiverTakesCredit(me, other, net); }
    case Deliver(i) => if Arrives(me, i) { ReceiverArrivalCredit(me, other, i, net); }
    case RefuseData => ReceiverSettledCredit(me, other, act, net);
    case TakeEof => ReceiverSettledCredit(me, other, act, net);
    case RefuseEof => ReceiverSettledCredit(me, other, act, net);
    case _ => ReceiverNetworkCredit(me, other, act, net);
  }

  // ----- whole runs -----

  lemma DoInv(p: Pair, act: Act)
    requires Inv(p)
    ensures Inv(Do(p, act))
  {
    var m := Move(p.a, act, p.net);
    MoveSafe(p.a, act, p.net);
    MoveBound(p.a, act, p.net);
    SentOnLink(p.a, act, p.net);
    NetGrows(p.a, act, p.net);
    SenderOnLink(p.a, p.b, act, p.net);
    ReceiverOnLink(p.a, p.b, act, p.net);
    SenderEofOrder(p.a, p.b, act, p.net);
    ReceiverEofOrder(p.a, p.b, act, p.net);
    SenderCredit(p.a, p.b, act, p.net);
    ReceiverCredit(p.a, p.b, act, p.net);
    PeerUnmoved(p.a, p.b, m, p.net);
  }

  /** The side that does not move only receives. */
  lemma PeerUnmoved(me: Side, other: Side, m: Moved, net: Net)
    requires Bound(other, net) && net.channels <= m.net.channels && net.dead <= m.net.dead && Bound(m.me, m.net)
    requires forall i :: 0 <= i < |m.sent| ==> m.me.link == Some(m.sent[i].channel)
    requires EofOrder(other, m.me, m.net) && OnLink(other, m.me, m.net)
    ensures Bound(other.(inbox := other.inbox + m.sent), m.net)
    ensures EofOrder(other.(inbox := other.inbox + m.sent), m.me, m.net)
    ensures OnLink(other.(inbox := other.inbox + m.sent), m.me, m.net)
  {
  }

  lemma TakeInv(p: Pair, turn: Turn)
    requires Inv(p)
    ensures Inv(Take(p, turn))
  {
    match turn
    case First(act) => DoInv(p, act);
    case Second(act) => DoInv(Swap(p), act);
  }

  lemma OpeningInv(p: Pair)
    requires Opening(p)
    ensures Inv(p)
  {
    NewStreamSafe(p.a.s.window);
    NewStreamSafe(p.b.s.window);
  }

  lemma {:induction false} RunInv(p: Pair, turns: seq<Turn>)
    requires Inv(p)
    ensures Inv(Run(p, turns))
    decreases |turns|
  {
    if turns == [] {
    } else {
      TakeInv(p, turns[0]);
      RunInv(Take(p, turns[0]), turns[1..]);
    }
  }

  /** What a sender counts as unacknowledged is never more than what is really outstanding. */
  ghost predicate NoLeak(snd: Side, rcv: Side, net: Net) {
    snd.link.Some? && net.Live(snd.link.value) && snd.s.status.Open? && rcv.s.status.Open? ==>
      var c := snd.link.value;
      snd.s.inFlight <= HandingOver(snd.s) + DataSize(rcv.inbox, c) +
                        if rcv.link == Some(c) then Held(rcv.s) + AckSize(snd.inbox, c) else 0
  }

  lemma NoCreditLeak(start: Pair, turns: seq<Turn>)
    requires Opening(start)
    ensures var p := Run(start, turns);
            NoLeak(p.a, p.b, p.net) && NoLeak(p.b, p.a, p.net)
  {
    OpeningInv(start);
    RunInv(start, turns);
  }
}
