/**
 * End-to-end delivery over a pair of streams in a run without loss or abort: each application is
 * given a prefix of what the other sent, and everything once the stream ends; and the receiver's
 * buffer is bounded by the credit window.
 */
module PairDelivery {
  import opened Bytes
  import opened StreamModel
  import opened StreamRuns
  import opened StreamPair
  import opened StreamBooks
  import opened PairCredit

  // ----- what a move hands over and receives -----

  lemma DataChunksOne(packet: Packet)
    ensures DataChunks([packet]) == if packet.frame.Data? then [packet.frame.chunk] else []
  {
    assert [packet][1..] == [];
  }

  /** Taking a packet out of the way takes out its chunk, if it is one. */
  lemma DataChunksWithout(q: seq<Packet>, i: nat)
    requires i < |q|
    ensures q[i].frame.Data? ==> |DataChunks(q[..i])| < |DataChunks(q)| &&
                                 DataChunks(q)[|DataChunks(q[..i])|] == q[i].frame.chunk
    ensures var k := |DataChunks(q[..i])|;
            DataChunks(Without(q, i)) ==
            if q[i].frame.Data? then DataChunks(q)[..k] + DataChunks(q)[k + 1..] else DataChunks(q)
  {
    var x, y := q[..i], q[i + 1..];
    assert q == (x + [q[i]]) + y && Without(q, i) == x + y;
    DataChunksAppend(x + [q[i]], y);
    DataChunksAppend(x, [q[i]]);
    DataChunksAppend(x, y);
    DataChunksOne(q[i]);
    var a, one, b := DataChunks(x), DataChunks([q[i]]), DataChunks(y);
    assert DataChunks(q) == a + one + b;
    if q[i].frame.Data? {
      assert one == [q[i].frame.chunk];
      assert (a + one + b)[..|a|] == a && (a + one + b)[|a| + 1..] == b;
    } else {
      assert one == [] && a + one + b == a + b;
    }
  }

  /** Only a chunk that the transport takes is handed over. */
  lemma SenderHanded(me: Side, act: Act, net: Net)
    requires Safe(me.s)
    ensures Move(me, act, net).me.s.handed ==
            me.s.handed + if act.TakeData? && Takes(me) then [me.s.chain.chunk] else []
  {
    MoveIsRegion(me, act, net);
    match act
    case Local(op) => if IsLocal(op) { LocalBooks(me.s, op); }
    case TakeData => SendChunks(me.s);
    case RefuseData => SendChunks(me.s);
    case TakeEof => CloseBooks(me.s, true);
    case RefuseEof => CloseBooks(me.s, false);
    case Deliver(i) =>
      if Arrives(me, i) {
        match me.inbox[i].frame {
          case Data(c) => DataBooks(me.s, c);
          case Ctl(control) => ControlBooks(me.s, control);
        }
      }
    case Unbind(graceMs) => DisconnectBooks(me.s, graceMs);
    case Bind(c) => ReconnectBooks(me.s);
    case _ =>
  }

  /** A chunk arrives at a stream that still reads. */
  predicate Gets(me: Side, act: Act) {
    && act.Deliver? && Arrives(me, act.index) && me.inbox[act.index].frame.Data?
    && !me.s.readClosed && me.s.status.Open?
  }

  /** Only such a chunk is received. */
  lemma ReceiverGot(me: Side, act: Act, net: Net)
    requires Safe(me.s)
    ensures Received(Move(me, act, net).me.s) ==
            if Gets(me, act) then Received(me.s) + [me.inbox[act.index].frame.chunk] else Received(me.s)
  {
    MoveIsRegion(me, act, net);
    match act
    case Local(op) => if IsLocal(op) { LocalBooks(me.s, op); }
    case TakeData => SendChunks(me.s);
    case RefuseData => SendChunks(me.s);
    case TakeEof => CloseBooks(me.s, true);
    case RefuseEof => CloseBooks(me.s, false);
    case Deliver(i) =>
      if Arrives(me, i) {
        match me.inbox[i].frame {
          case Data(c) => DataBooks(me.s, c);
          case Ctl(control) => ControlBooks(me.s, control);
        }
      }
    case Unbind(graceMs) => DisconnectBooks(me.s, graceMs);
    case Bind(c) => ReconnectBooks(me.s);
    case _ =>
  }

  // ----- runs without loss or abort -----

  predicate Calm(act: Act) {
    match act
    case Local(op) => !op.DoAbort? && !op.DoLeft?
    case RefuseData => false
    case RefuseEof => false
    case Lose(_) => false
    case Unbind(_) => false
    case _ => true
  }

  predicate LossFree(turns: seq<Turn>) {
    forall turn :: turn in turns ==> Calm(turn.act)
  }

  predicate CalmFrame(frame: Frame) {
    frame != Ctl(Abort) && frame != Ctl(Resume)
  }

  ghost predicate CalmSide(me: Side) {
    && me.link == Some(0)
    && me.s.connection.Connected?
    && (forall i :: 0 <= i < |me.inbox| ==> me.inbox[i].channel == 0 && CalmFrame(me.inbox[i].frame))
  }

  /** Every chunk handed over is received or on the way, and so is every byte counted or sent unmetered. */
  ghost predicate Exact(snd: Side, rcv: Side) {
    && Received(rcv.s) + DataChunks(rcv.inbox) == snd.s.handed
    && (rcv.s.readClosed ==> snd.s.closer.CloseDone? && DataChunks(rcv.inbox) == [])
    && OnTheWay(snd, rcv, 0) <= Debt(snd.s) + snd.s.uncounted
  }

  ghost predicate CalmPair(p: Pair) {
    && Inv(p)
    && p.net.dead == {}
    && CalmSide(p.a) && CalmSide(p.b)
    && Exact(p.a, p.b) && Exact(p.b, p.a)
  }

  /** A calm move runs a calm region. */
  predicate CalmOp(op: Op) {
    && !op.DoAbort? && !op.DoLeft? && !op.DoDisconnect? && !op.DoReconnect? && !op.DoSendFailed?
    && op != DoControl(Abort) && op != DoControl(Resume)
  }

  lemma CalmRegion(s: StreamState, op: Op)
    requires Safe(s) && s.connection.Connected? && CalmOp(op)
    ensures Apply(s, op).s.connection.Connected?
    ensures Abort !in Apply(s, op).out && Resume !in Apply(s, op).out
    ensures !s.readClosed && Apply(s, op).s.readClosed ==> op == DoControl(Eof)
  {
    match op
    case DoSend(c) =>
    case DoChain => ChainKeepsConnection(s);
    case DoSendOk =>
    case DoClose =>
    case DoCloseDrained =>
    case DoEofSettled(ok) => ControlKeepsConnection(s, Ping, ok);
    case DoData(c) =>
    case DoControl(control) =>
      ControlKeepsConnection(s, control, true);
      CalmControl(s, control);
    case DoTimer =>
    case DoNext => ReaderKeepsConnection(s);
    case DoReader => ReaderKeepsConnection(s);
    case DoReturn =>
    case DoGreet =>
    case DoKeepAlive =>
  }

  lemma CalmControl(s: StreamState, control: Control)
    requires control != Abort && control != Resume
    ensures Abort !in s.ReceiveControl(control).out && Resume !in s.ReceiveControl(control).out
    ensures !s.readClosed && s.ReceiveControl(control).s.readClosed ==> control == Eof
  {
    match control
    case Ack(n) =>
    case _ =>
  }

  /** A calm move of a calm side is a calm region, and nothing is lost. */
  lemma CalmMove(me: Side, act: Act, net: Net)
    requires Safe(me.s) && CalmSide(me) && Calm(act) && net.dead == {}
    ensures var m := Move(me, act, net);
            && m.net.dead == {} && m.me.link == me.link
            && (OpOf(me, act, net).Some? ==> CalmOp(OpOf(me, act, net).value))
            && m.me.inbox == (if act.Deliver? && Arrives(me, act.index) then Without(me.inbox, act.index) else me.inbox)
  {
  }

  lemma CalmPost(link: Option<nat>, out: seq<Control>)
    requires link == Some(0) && Abort !in out && Resume !in out
    ensures forall i :: 0 <= i < |Post(link, out)| ==>
              Post(link, out)[i].channel == 0 && CalmFrame(Post(link, out)[i].frame)
  {
    PostFacts(link, out, 0);
  }

  lemma CalmSent(me: Side, act: Act, net: Net)
    requires Safe(me.s) && CalmSide(me) && Calm(act) && net.dead == {}
    ensures forall packet :: packet in Move(me, act, net).sent ==> packet.channel == 0 && CalmFrame(packet.frame)
  {
    CalmMove(me, act, net);
    match act
    case Local(op) =>
      if IsLocal(op) {
        CalmRegion(me.s, op);
        CalmPost(me.link, Apply(me.s, op).out);
      }
    case TakeEof =>
      CalmRegion(me.s, DoEofSettled(true));
      CalmPost(me.link, me.s.EofSettled(true).out);
    case Deliver(i) =>
      if Arrives(me, i) {
        CalmRegion(me.s, OpOf(me, act, net).value);
        CalmPost(me.link, Receive(me.s, me.inbox[i].frame).out);
      }
    case _ =>
  }

  lemma CalmStays(me: Side, act: Act, net: Net)
    requires Safe(me.s) && CalmSide(me) && Calm(act) && net.dead == {}
    ensures CalmSide(Move(me, act, net).me)
  {
    CalmMove(me, act, net);
    MoveIsRegion(me, act, net);
    if OpOf(me, act, net).Some? {
      CalmRegion(me.s, OpOf(me, act, net).value);
    }
  }

  /** The sender's side of Exact. */
  lemma SenderExactChunks(me: Side, other: Side, act: Act, net: Net)
    requires Safe(me.s) && CalmSide(me) && Calm(act) && net.dead == {} && Exact(me, other)
    ensures var m := Move(me, act, net);
            var o := other.(inbox := other.inbox + m.sent);
            && Received(o.s) + DataChunks(o.inbox) == m.me.s.handed
            && (o.s.readClosed ==> m.me.s.closer.CloseDone? && DataChunks(o.inbox) == [])
  {
    SentKinds(me, act, net);
    SenderHanded(me, act, net);
    MoveSafe(me, act, net);
    DataChunksAppend(other.inbox, Move(me, act, net).sent);
    if act.TakeData? && Takes(me) {
      DataChunksOne(Packet(me.link.value, Data(me.s.chain.chunk)));
      assert Received(other.s) + (DataChunks(other.inbox) + [me.s.chain.chunk]) ==
             (Received(other.s) + DataChunks(other.inbox)) + [me.s.chain.chunk];
    } else {
      assert DataChunks(other.inbox) + [] == DataChunks(other.inbox);
      assert me.s.handed + [] == me.s.handed;
    }
  }

  /** Nothing on the way that the sender does not count, except what it sent unmetered. */
  ghost predicate Counted(snd: Side, rcv: Side) {
    OnTheWay(snd, rcv, 0) <= Debt(snd.s) + snd.s.uncounted
  }

  lemma SenderRegionCounted(snd: Side, rcv: Side, e: Effect)
    requires snd.link == Some(0) && rcv.link == Some(0) && Counted(snd, rcv)
    requires Debt(e.s) + e.s.uncounted >= Debt(snd.s) + snd.s.uncounted
    ensures Counted(snd.(s := e.s), rcv.(inbox := rcv.inbox + Post(snd.link, e.out)))
  {
    PostFacts(snd.link, e.out, 0);
    DataSizeAppend(rcv.inbox, Post(snd.link, e.out), 0);
  }

  lemma SenderArrivalCounted(me: Side, other: Side, i: nat)
    requires Safe(me.s) && Arrives(me, i) && CalmFrame(me.inbox[i].frame)
    requires me.link == Some(0) && other.link == Some(0) && Counted(me, other)
    ensures var e := Receive(me.s, me.inbox[i].frame);
            Counted(me.(s := e.s, inbox := Without(me.inbox, i)), other.(inbox := other.inbox + Post(me.link, e.out)))
  {
    var e := Receive(me.s, me.inbox[i].frame);
    PostFacts(me.link, e.out, 0);
    DataSizeAppend(other.inbox, Post(me.link, e.out), 0);
    WithoutSize(me.inbox, i, 0);
    match me.inbox[i].frame
    case Data(c) => DataBooks(me.s, c);
    case Ctl(control) => ControlBooks(me.s, control);
  }

  lemma SenderCounted(me: Side, other: Side, act: Act, net: Net)
    requires Safe(me.s) && CalmSide(me) && other.link == Some(0) && Calm(act) && net.dead == {} && Counted(me, other)
    ensures var m := Move(me, act, net); Counted(m.me, other.(inbox := other.inbox + m.sent))
  {
    assert other.inbox + [] == other.inbox;
    match act
    case Local(op) =>
      if IsLocal(op) {
        LocalBooks(me.s, op);
        SenderRegionCounted(me, other, Apply(me.s, op));
      }
    case TakeData =>
      if Takes(me) {
        var packet := Packet(me.link.value, Data(me.s.chain.chunk));
        SendBooks(me.s);
        SendChunks(me.s);
        DataSizeAppend(other.inbox, [packet], 0);
        assert [packet][1..] == [];
      }
    case TakeEof =>
      CloseBooks(me.s, true);
      SenderRegionCounted(me, other, me.s.EofSettled(true));
    case Deliver(i) =>
      if Arrives(me, i) {
        SenderArrivalCounted(me, other, i);
      }
    case _ =>
  }

  /** In a calm run what arrives is always received. */
  lemma ArrivalReceived(me: Side, other: Side, i: nat)
    requires Safe(me.s) && CalmSide(me) && Exact(other, me) && i < |me.inbox| && me.inbox[i].frame.Data?
    ensures !me.s.readClosed && me.s.status.Open?
  {
    NoDataChunks(me.inbox);
  }

  predicate OneChannel(q: seq<Packet>, channel: nat) {
    forall k :: 0 <= k < |q| ==> q[k].channel == channel
  }

  lemma NothingInFront(q: seq<Packet>, i: nat, channel: nat)
    requires i < |q| && InTurn(q, i) && OneChannel(q, channel)
    ensures DataChunks(q[..i]) == []
  {
    NoDataChunks(q[..i]);
    forall j | 0 <= j < i
      ensures MayWait(q[..i][j].frame)
    {
      assert q[j].channel == q[i].channel;
    }
  }

  lemma NothingBehind(q: seq<Packet>, i: nat, channel: nat)
    requires i < |q| && InTurn(q, i) && OneChannel(q, channel) && EofLast(q) && q[i].frame == Ctl(Eof)
    ensures DataChunks(Without(q, i)) == []
  {
    NothingInFront(q, i, channel);
    NoDataChunks(q[i + 1..]);
    DataChunksAppend(q[..i], q[i + 1..]);
  }

  /** On one channel chunks arrive in order, and behind an eof there are none. */
  lemma NextChunk(q: seq<Packet>, i: nat, channel: nat)
    requires i < |q| && InTurn(q, i) && OneChannel(q, channel)
    ensures DataChunks(q) == (if q[i].frame.Data? then [q[i].frame.chunk] else []) + DataChunks(Without(q, i))
    ensures EofLast(q) && q[i].frame == Ctl(Eof) ==> DataChunks(Without(q, i)) == []
  {
    FrontChunk(q, i, channel);
    if EofLast(q) && q[i].frame == Ctl(Eof) {
      NothingBehind(q, i, channel);
    }
  }

  lemma FrontChunk(q: seq<Packet>, i: nat, channel: nat)
    requires i < |q| && InTurn(q, i) && OneChannel(q, channel)
    ensures DataChunks(q) == (if q[i].frame.Data? then [q[i].frame.chunk] else []) + DataChunks(Without(q, i))
  {
    NothingInFront(q, i, channel);
    var x, y := q[..i], q[i + 1..];
    SplitChunks(q, x, q[i], y);
    DataChunksAppend(x, y);
    assert [] + DataChunks(y) == DataChunks(y);
  }

  lemma SplitChunks(q: seq<Packet>, x: seq<Packet>, packet: Packet, y: seq<Packet>)
    requires q == x + [packet] + y && DataChunks(x) == []
    ensures DataChunks(q) == (if packet.frame.Data? then [packet.frame.chunk] else []) + DataChunks(y)
  {
    DataChunksAppend(x + [packet], y);
    DataChunksAppend(x, [packet]);
    DataChunksOne(packet);
  }

  /** The receiver's side of Exact after an arrival. */
  lemma ArrivalExact(r: seq<Chunk>, q: seq<Packet>, i: nat, channel: nat, handed: seq<Chunk>)
    requires i < |q| && InTurn(q, i) && OneChannel(q, channel)
    requires r + DataChunks(q) == handed
    ensures (if q[i].frame.Data? then r + [q[i].frame.chunk] else r) + DataChunks(Without(q, i)) == handed
  {
    NextChunk(q, i, channel);
    if q[i].frame.Data? {
      Regroup(r, q[i].frame.chunk, DataChunks(Without(q, i)));
    }
  }

  lemma ReceiverExactChunks(me: Side, other: Side, act: Act, net: Net)
    requires Safe(me.s) && CalmSide(me) && Calm(act) && net.dead == {}
    requires Exact(other, me) && EofOrder(other, me, net)
    ensures var t := Move(me, act, net).me;
            && Received(t.s) + DataChunks(t.inbox) == other.s.handed
            && (t.s.readClosed ==> other.s.closer.CloseDone? && DataChunks(t.inbox) == [])
  {
    CalmMove(me, act, net);
    ReceiverGot(me, act, net);
    MoveIsRegion(me, act, net);
    if OpOf(me, act, net).Some? {
      CalmRegion(me.s, OpOf(me, act, net).value);
    }
    if act.Deliver? && Arrives(me, act.index) {
      var i := act.index;
      NextChunk(me.inbox, i, 0);
      ArrivalExact(Received(me.s), me.inbox, i, 0, other.s.handed);
      WithoutFacts(me.inbox, i);
      if me.inbox[i].frame.Data? {
        ArrivalReceived(me, other, i);
      }
    }
  }

  lemma Regroup(a: seq<Chunk>, c: Chunk, b: seq<Chunk>)
    ensures a + [c] + b == a + ([c] + b)
  {
  }

  lemma ReceiverRegionCounted(snd: Side, rcv: Side, e: Effect)
    requires rcv.link == Some(0) && Counted(snd, rcv) && HeldKept(rcv.s, e)
    ensures Counted(snd.(inbox := snd.inbox + Post(rcv.link, e.out)), rcv.(s := e.s))
  {
    PostFacts(rcv.link, e.out, 0);
    AckSizeAppend(snd.inbox, Post(rcv.link, e.out), 0);
  }

  lemma ReceiverArrivalCounted(me: Side, other: Side, i: nat)
    requires Safe(me.s) && Arrives(me, i) && me.link == Some(0) && Counted(other, me)
    ensures var e := Receive(me.s, me.inbox[i].frame);
            Counted(other.(inbox := other.inbox + Post(me.link, e.out)), me.(s := e.s, inbox := Without(me.inbox, i)))
  {
    var e := Receive(me.s, me.inbox[i].frame);
    PostFacts(me.link, e.out, 0);
    AckSizeAppend(other.inbox, Post(me.link, e.out), 0);
    WithoutSize(me.inbox, i, 0);
    match me.inbox[i].frame
    case Data(c) => DataBooks(me.s, c);
    case Ctl(control) => ControlBooks(me.s, control);
  }

  lemma ReceiverCounted(me: Side, other: Side, act: Act, net: Net)
    requires Safe(me.s) && CalmSide(me) && Calm(act) && net.dead == {} && Counted(other, me)
    ensures var m := Move(me, act, net); Counted(other.(inbox := other.inbox + m.sent), m.me)
  {
    assert other.inbox + [] == other.inbox;
    match act
    case Local(op) =>
      if IsLocal(op) {
        LocalBooks(me.s, op);
        ReceiverRegionCounted(other, me, Apply(me.s, op));
      }
    case TakeData =>
      if Takes(me) {
        var packet := Packet(me.link.value, Data(me.s.chain.chunk));
        SendBooks(me.s);
        AckSizeAppend(other.inbox, [packet], 0);
        assert [packet][1..] == [];
      }
    case TakeEof =>
      CloseBooks(me.s, true);
      ReceiverRegionCounted(other, me, me.s.EofSettled(true));
    case Deliver(i) =>
      if Arrives(me, i) {
        ReceiverArrivalCounted(me, other, i);
      }
    case _ =>
  }

  lemma DoCalm(p: Pair, act: Act)
    requires CalmPair(p) && Calm(act)
    ensures CalmPair(Do(p, act))
  {
    DoInv(p, act);
    CalmMove(p.a, act, p.net);
    CalmStays(p.a, act, p.net);
    CalmSent(p.a, act, p.net);
    SenderExactChunks(p.a, p.b, act, p.net);
    ReceiverExactChunks(p.a, p.b, act, p.net);
    SenderCounted(p.a, p.b, act, p.net);
    ReceiverCounted(p.a, p.b, act, p.net);
    CalmPeer(p.b, Move(p.a, act, p.net).sent);
  }

  lemma CalmPeer(other: Side, sent: seq<Packet>)
    requires CalmSide(other)
    requires forall packet :: packet in sent ==> packet.channel == 0 && CalmFrame(packet.frame)
    ensures CalmSide(other.(inbox := other.inbox + sent))
  {
  }

  lemma {:induction false} RunCalm(p: Pair, turns: seq<Turn>)
    requires CalmPair(p) && LossFree(turns)
    ensures CalmPair(Run(p, turns))
    decreases |turns|
  {
    if turns == [] {
    } else {
      assert turns[0] in turns;
      match turns[0] {
        case First(act) => DoCalm(p, act);
        case Second(act) => DoCalm(Swap(p), act);
      }
      assert forall turn :: turn in turns[1..] ==> turn in turns;
      RunCalm(Take(p, turns[0]), turns[1..]);
    }
  }

  lemma FreshExact(w: nat, v: nat)
    ensures Exact(Fresh(w, 0), Fresh(v, 0))
  {
    assert Received(NewStream(v)) + DataChunks([]) == [];
  }

  lemma StartCalm(windowA: nat, windowB: nat)
    ensures CalmPair(Start(windowA, windowB))
  {
    StartOpens(windowA, windowB);
    OpeningInv(Start(windowA, windowB));
    FreshExact(windowA, windowB);
    FreshExact(windowB, windowA);
    assert CalmSide(Start(windowA, windowB).a) && CalmSide(Start(windowA, windowB).b);
  }

  /** Once the peer's flow:1 has been processed, every byte is metered. */
  lemma UnmeteredOnlyBeforeFlow(s: StreamState, op: Op)
    requires Safe(s) && s.flowEnabled
    ensures Apply(s, op).s.uncounted == s.uncounted
  {
    match op
    case DoSendOk => SendChunks(s);
    case DoSendFailed => RefusalUnmetered(s);
    case DoEofSettled(ok) => CloseBooks(s, ok);
    case DoData(c) => DataBooks(s, c);
    case DoControl(control) => ControlBooks(s, control);
    case DoDisconnect(graceMs) => DisconnectBooks(s, graceMs);
    case DoReconnect =>
    case _ => LocalBooks(s, op);
  }

  lemma RefusalUnmetered(s: StreamState)
    ensures s.flowEnabled ==> s.SendFailed().uncounted == s.uncounted
  {
    if s.chain.Sending? {
      if s.status.Closed? || s.writeStatus.Shut? {} else {}
    }
  }

  /** What one direction of a calm run delivers. */
  ghost predicate Faithful(snd: Side, rcv: Side) {
    && rcv.s.yielded <= snd.s.accepted
    && (rcv.s.reader.Ended? ==> rcv.s.yielded == snd.s.accepted)
  }

  lemma ExactIsFaithful(snd: Side, rcv: Side)
    requires Safe(snd.s) && Safe(rcv.s) && Exact(snd, rcv)
    ensures Faithful(snd, rcv)
  {
    assert rcv.s.yielded <= Received(rcv.s) <= Received(rcv.s) + DataChunks(rcv.inbox) == snd.s.handed;
  }

  /**
   * End to end: in a run without loss or abort each application is given a prefix of what
   * the other sent, and all of it when its stream ends.
   */
  lemma EndToEnd(windowA: nat, windowB: nat, turns: seq<Turn>)
    requires LossFree(turns)
    ensures var p := Run(Start(windowA, windowB), turns);
            Faithful(p.a, p.b) && Faithful(p.b, p.a)
  {
    StartCalm(windowA, windowB);
    RunCalm(Start(windowA, windowB), turns);
    var p := Run(Start(windowA, windowB), turns);
    ExactIsFaithful(p.a, p.b);
    ExactIsFaithful(p.b, p.a);
  }

  /** All bytes of one direction that are handed over and not yet acknowledged to the sender. */
  function Outstanding(snd: Side, rcv: Side): nat {
    HandingOver(snd.s) + DataSize(rcv.inbox, 0) + Held(rcv.s) + AckSize(snd.inbox, 0)
  }

  /** One direction: the receiver's queue is within what is outstanding, and that within the limit. */
  ghost predicate WithinLimit(snd: Side, rcv: Side) {
    Size(rcv.s.items) <= Outstanding(snd, rcv) <= Limit(snd.s) + snd.s.uncounted
  }

  lemma CountedIsWithinLimit(snd: Side, rcv: Side)
    requires WithinWindow(snd.s) && CalmSide(snd) && CalmSide(rcv) && Counted(snd, rcv)
    ensures WithinLimit(snd, rcv)
  {
  }

  /**
   * The window bounds what is really outstanding, hence the receiver's buffer, up to the
   * bytes that were sent before the peer's flow:1 had been processed.
   */
  lemma WindowBoundsBuffer(windowA: nat, windowB: nat, turns: seq<Turn>)
    requires LossFree(turns)
    ensures var p := Run(Start(windowA, windowB), turns);
            WithinLimit(p.a, p.b) && WithinLimit(p.b, p.a)
  {
    StartCalm(windowA, windowB);
    RunCalm(Start(windowA, windowB), turns);
    var p := Run(Start(windowA, windowB), turns);
    CountedIsWithinLimit(p.a, p.b);
    CountedIsWithinLimit(p.b, p.a);
  }

  // ----- an open side on a live channel need not be connected -----

  ghost predicate Attached(me: Side, net: Net) {
    me.link.Some? && net.Live(me.link.value) && me.s.status.Open?
  }

  /**
   * A side that is connected over a live channel stops being so, with the channel still
   * live and the side still bound to it, exactly when the transport refuses a chunk: nobody
   * else tells the stream, so nobody will tell it that the peer is back.
   */
  lemma DetachedByRefusal(p: Pair, act: Act)
    requires Inv(p) && Attached(p.a, p.net) && p.a.s.connection.Connected?
    requires Attached(Do(p, act).a, Do(p, act).net)
    ensures Do(p, act).a.s.connection.Reconnecting? <==> act.RefuseData? && p.a.s.chain.Sending?
  {
    MoveIsRegion(p.a, act, p.net);
    match act
    case Local(op) => if IsLocal(op) { LocalStaysConnected(p.a.s, op); }
    case RefuseData => RefusalDetaches(p.a.s);
    case TakeEof => ControlKeepsConnection(p.a.s, Ping, true);
    case RefuseEof => ControlKeepsConnection(p.a.s, Ping, false);
    case Deliver(i) =>
      if Arrives(p.a, i) {
        match p.a.inbox[i].frame {
          case Data(c) =>
          case Ctl(control) => ControlKeepsConnection(p.a.s, control, true);
        }
      }
    case _ =>
  }

  lemma LocalStaysConnected(s: StreamState, op: Op)
    requires Safe(s) && s.connection.Connected? && IsLocal(op) && Apply(s, op).s.status.Open?
    ensures Apply(s, op).s.connection.Connected?
  {
    if CalmOp(op) {
      CalmRegion(s, op);
    }
  }

  lemma RefusalDetaches(s: StreamState)
    requires Safe(s) && s.connection.Connected? && s.SendFailed().status.Open?
    ensures s.SendFailed().connection.Reconnecting? <==> s.chain.Sending?
  {
    if s.chain.Sending? {
      if s.status.Closed? || s.writeStatus.Shut? {} else {}
    }
  }

  lemma RunCons(p: Pair, turn: Turn, turns: seq<Turn>)
    ensures Run(p, [turn] + turns) == Run(Take(p, turn), turns)
  {
    assert ([turn] + turns)[1..] == turns;
  }

  /** A fresh pair whose first side is handing over one byte. */
  function HandingByte(): Pair {
    var p := Start(1, 1);
    p.(a := p.a.(s := NewStream(1).(chain := Sending([7]), accepted := [[7]], uncounted := 1), via := Some(0)))
  }

  /** A region that posts nothing touches only its own side. */
  lemma QuietTurn(p: Pair, op: Op)
    requires IsLocal(op) && Apply(p.a.s, op).out == []
    ensures Do(p, Local(op)).b == p.b
  {
    assert p.b.inbox + [] == p.b.inbox;
  }

  lemma HandingByteIsReached()
    ensures var step := First(Local(DoChain));
            Run(Start(1, 1), [First(Local(DoSend([7]))), step, step, step, step, step]) == HandingByte()
  {
    var step := First(Local(DoChain));
    var p0 := Start(1, 1);
    QuietTurn(p0, DoSend([7]));
    var p1 := Take(p0, First(Local(DoSend([7]))));
    assert p1 == p0.(a := p0.a.(s := NewStream(1).(queue := [[7]], accepted := [[7]])));
    QuietTurn(p1, DoChain);
    var p2 := Take(p1, step);
    assert p2 == p0.(a := p0.a.(s := NewStream(1).(chain := AtPeer([7], false), accepted := [[7]])));
    QuietTurn(p2, DoChain);
    var p3 := Take(p2, step);
    assert p3 == p0.(a := p0.a.(s := NewStream(1).(chain := AtFlow([7]), accepted := [[7]])));
    QuietTurn(p3, DoChain);
    var p4 := Take(p3, step);
    assert p4 == p0.(a := p0.a.(s := NewStream(1).(chain := AtPeer([7], true), accepted := [[7]])));
    QuietTurn(p4, DoChain);
    var p5 := Take(p4, step);
    assert p5 == p0.(a := p0.a.(s := NewStream(1).(chain := AtSend([7]), accepted := [[7]])));
    QuietTurn(p5, DoChain);
    assert Take(p5, step) == HandingByte();
    RunCons(p5, step, []);
    RunCons(p4, step, [step]);
    RunCons(p3, step, [step, step]);
    RunCons(p2, step, [step, step, step]);
    RunCons(p1, step, [step, step, step, step]);
    RunCons(p0, First(Local(DoSend([7]))), [step, step, step, step, step]);
  }

  /** From there one refusal detaches the stream from a channel that is still live. */
  lemma RefusalDetachesLiveChannel()
    ensures var q := Run(HandingByte(), [First(RefuseData)]);
            Attached(q.a, q.net) && q.a.s.connection.Reconnecting?
  {
    RunCons(HandingByte(), First(RefuseData), []);
  }
}
