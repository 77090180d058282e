/**
 * How a parked sender is woken: deliveries and a reading application are enough, from every
 * reachable state; and when the application has left its loop, nothing short of losing the
 * channel or closing a stream wakes it.
 */
module PairWakeup {
  import opened Bytes
  import opened StreamModel
  import opened StreamRuns
  import opened StreamPair
  import opened StreamBooks
  import opened PairCredit
  import opened PairDelivery
  import opened PairProgress

  // ----- stuck for good -----

  /** Parked, while the peer's application has left its loop and no wake-up is under way. */
  ghost predicate Stuck(p: Pair) {
    Parked(p.a, p.b, p.net) && Gone(p.b, p.a.link.value) && !WakeUnderWay(p.a.inbox, p.a.link.value)
  }

  /** Whatever wakes nobody leaves the parked operation where it is. */
  lemma StaysParked(s: StreamState, op: Op)
    requires Safe(s) && s.chain.FlowParked? && Apply(s, op).s.status.Open?
    requires !op.DoReconnect? && (op.DoControl? ==> !Wakes(Ctl(op.control)))
    ensures Apply(s, op).s.chain == s.chain
  {
    match op
    case DoControl(control) => if control.Eof? { if s.writeStatus.Shut? {} else {} }
    case DoEofSettled(ok) => if s.closer.SendingEof? {} else {}
    case DoDisconnect(graceMs) => if graceMs == 0 {} else {}
    case DoSend(c) => if s.writeStatus.Writable? {} else {}
    case DoNext => if s.reader.Resting? {} else {}
    case DoReader => if s.reader.Acking? {} else {}
    case DoReturn => if s.reader.Resting? {} else {}
    case DoChain =>
    case DoSendOk =>
    case DoSendFailed =>
    case DoClose =>
    case DoCloseDrained =>
    case DoAbort =>
    case DoData(c) =>
    case DoLeft =>
    case DoTimer =>
    case DoGreet =>
    case DoKeepAlive =>
  }

  lemma EndingStaysGone(s: StreamState, graceMs: nat)
    requires s.reader.Returned?
    ensures s.AbortCall().s.reader.Returned? && s.RemoteAbort().reader.Returned? && s.EndRead().MaybeFinalize().reader.Returned?
    ensures s.PeerLeft().reader.Returned? && s.TimerFires().reader.Returned? && s.PeerDisconnected(graceMs).reader.Returned?
  {
    if s.finalized {} else {}
  }

  lemma SettlingStaysGone(s: StreamState, ok: bool)
    requires s.reader.Returned?
    ensures s.SendFailed().reader.Returned? && s.EofSettled(ok).s.reader.Returned?
  {
    if s.chain.Sending? {
      EndingStaysGone(s.(inFlight := s.Refunded(), chain := AtPeer(s.chain.chunk, false)), RECONNECT_GRACE_MS);
    }
    if s.closer.SendingEof? && ok {
      if s.readClosed {} else {}
    }
  }

  lemma ControlStaysGone(s: StreamState, control: Control)
    requires s.reader.Returned?
    ensures s.ReceiveControl(control).s.reader.Returned?
  {
    EndingStaysGone(s, 0);
    match control
    case Ack(n) => if n <= 0 {} else {}
    case _ =>
  }

  lemma DrainStaysGone(s: StreamState)
    ensures s.CloseDrained().reader == s.reader && s.SendOk().reader == s.reader
  {
    if s.chain.Broken? {} else {}
  }

  lemma ChainStaysGone(s: StreamState)
    ensures s.ChainStep().reader == s.reader
  {
    match s.chain
    case AtPeer(c, again) => if s.connection.Connected? {} else if s.status.Closed? {} else {}
    case AtFlow(c) => if s.Blocked(|c|) {} else if s.status.Closed? {} else {}
    case _ =>
  }

  /** An application that has left its loop stays away. */
  lemma StaysGone(s: StreamState, op: Op)
    requires s.reader.Returned?
    ensures Apply(s, op).s.reader.Returned?
  {
    match op
    case DoControl(control) => ControlStaysGone(s, control);
    case DoChain => ChainStaysGone(s);
    case DoCloseDrained => DrainStaysGone(s);
    case DoSendOk => DrainStaysGone(s);
    case DoDisconnect(graceMs) => EndingStaysGone(s, graceMs);
    case DoLeft => EndingStaysGone(s, 0);
    case DoTimer => EndingStaysGone(s, 0);
    case DoAbort => EndingStaysGone(s, 0);
    case DoSendFailed => SettlingStaysGone(s, true);
    case DoEofSettled(ok) => SettlingStaysGone(s, ok);
    case DoSend(c) => if s.writeStatus.Writable? {} else {}
    case DoReconnect => if s.connection.Reconnecting? {} else {}
    case DoClose =>
    case DoData(c) =>
    case DoNext =>
    case DoReader =>
    case DoReturn =>
    case DoGreet =>
    case DoKeepAlive =>
  }

  /** Its stream wakes nobody, unless the peer comes back or the stream ends. */
  lemma GoneSaysNothing(s: StreamState, op: Op)
    requires s.reader.Returned? && Apply(s, op).s.status.Open? && !op.DoReconnect?
    ensures forall control :: control in Apply(s, op).out ==> !Wakes(Ctl(control))
  {
    match op
    case DoControl(control) =>
    case DoEofSettled(ok) => if s.closer.SendingEof? {} else {}
    case DoGreet => if s.greeted {} else {}
    case DoAbort =>
    case _ =>
  }

  lemma PostedWakes(link: Option<nat>, out: seq<Control>, channel: nat)
    requires forall control :: control in out ==> !Wakes(Ctl(control))
    ensures !WakeUnderWay(Post(link, out), channel)
  {
    PostFacts(link, out, channel);
  }

  /** A side that is bound, open and left by its application sends nothing that wakes. */
  lemma GoneSends(me: Side, act: Act, net: Net, channel: nat)
    requires me.link.Some? && me.s.reader.Returned? && Move(me, act, net).me.s.status.Open?
    ensures !WakeUnderWay(Move(me, act, net).sent, channel)
    ensures Move(me, act, net).me.s.reader.Returned?
  {
    MoveIsRegion(me, act, net);
    if OpOf(me, act, net).Some? {
      StaysGone(me.s, OpOf(me, act, net).value);
      GoneSaysNothing(me.s, OpOf(me, act, net).value);
    }
    match act
    case Local(op) => if IsLocal(op) { PostedWakes(me.link, Apply(me.s, op).out, channel); }
    case TakeEof => if TakesEof(me) { PostedWakes(me.link, me.s.EofSettled(true).out, channel); }
    case Deliver(i) => if Arrives(me, i) { PostedWakes(me.link, Receive(me.s, me.inbox[i].frame).out, channel); }
    case _ =>
  }

  lemma WakeInPart(q: seq<Packet>, i: nat, channel: nat)
    requires i < |q| && WakeUnderWay(Without(q, i), channel)
    ensures WakeUnderWay(q, channel)
  {
    var r := Without(q, i);
    var k :| 0 <= k < |r| && r[k].channel == channel && Wakes(r[k].frame);
    var j := if k < i then k else k + 1;
    assert q[j].channel == channel && Wakes(q[j].frame);
  }

  /** A bound sender that is parked, with nothing under way that wakes, stays parked. */
  lemma SenderStaysParked(me: Side, act: Act, net: Net)
    requires Safe(me.s) && me.s.chain.FlowParked? && me.link.Some? && !WakeUnderWay(me.inbox, me.link.value)
    requires Move(me, act, net).me.s.status.Open?
    ensures Move(me, act, net).me.s.chain == me.s.chain
    ensures !WakeUnderWay(Move(me, act, net).me.inbox, me.link.value)
  {
    MoveIsRegion(me, act, net);
    if OpOf(me, act, net).Some? {
      if act.Deliver? {
        assert !Wakes(me.inbox[act.index].frame);
      }
      StaysParked(me.s, OpOf(me, act, net).value);
    }
    InboxAfter(me, act, net);
    if Removed(me, act, net).Some? && WakeUnderWay(Move(me, act, net).me.inbox, me.link.value) {
      WakeInPart(me.inbox, Removed(me, act, net).value, me.link.value);
    }
  }

  /** The channel lives, both sides are bound to it, and both streams are open. */
  ghost predicate Joined(p: Pair) {
    p.a.link.Some? && p.net.Live(p.a.link.value) && p.b.link == p.a.link && p.a.s.status.Open? && p.b.s.status.Open?
  }

  lemma StaysLinked(me: Side, act: Act, net: Net)
    requires me.link.Some? && Move(me, act, net).me.link.Some?
    ensures Move(me, act, net).me.link == me.link
  {
  }

  lemma StuckStaysOfSender(p: Pair, act: Act)
    requires Known(p) && Stuck(p) && Joined(Do(p, act))
    ensures Stuck(Do(p, act))
  {
    StaysLinked(p.a, act, p.net);
    SenderStaysParked(p.a, act, p.net);
  }

  lemma StuckStaysOfReceiver(p: Pair, act: Act)
    requires Known(p) && Stuck(p) && Joined(Take(p, Second(act)))
    ensures Stuck(Take(p, Second(act)))
  {
    var c := p.a.link.value;
    StaysLinked(p.b, act, p.net);
    GoneSends(p.b, act, p.net, c);
    var sent := Move(p.b, act, p.net).sent;
    forall i | 0 <= i < |p.a.inbox + sent|
      ensures !((p.a.inbox + sent)[i].channel == c && Wakes((p.a.inbox + sent)[i].frame))
    {
      if i >= |p.a.inbox| {
        assert (p.a.inbox + sent)[i] == sent[i - |p.a.inbox|];
      }
    }
  }

  /** All the pairs that a run goes through are joined. */
  ghost predicate JoinedThroughout(p: Pair, turns: seq<Turn>)
    decreases |turns|
  {
    Joined(p) && (turns == [] || JoinedThroughout(Take(p, turns[0]), turns[1..]))
  }

  /** As long as the channel lives and both streams are open, whatever is done, a stuck sender stays stuck. */
  lemma {:induction false} StuckForGood(p: Pair, turns: seq<Turn>)
    requires Known(p) && Stuck(p) && JoinedThroughout(p, turns)
    ensures Stuck(Run(p, turns)) && Run(p, turns).a.s.chain.FlowParked?
    decreases |turns|
  {
    if turns == [] {
    } else {
      assert Joined(Take(p, turns[0]));
      TakeKnown(p, turns[0]);
      match turns[0] {
        case First(act) => StuckStaysOfSender(p, act);
        case Second(act) => StuckStaysOfReceiver(p, act);
      }
      StuckForGood(Take(p, turns[0]), turns[1..]);
    }
  }

  // ----- a stuck sender is reached -----

  lemma {:induction false} RunSnoc(p: Pair, turns: seq<Turn>, turn: Turn)
    ensures Run(p, turns + [turn]) == Take(Run(p, turns), turn)
    decreases |turns|
  {
    if turns == [] {
      assert [] + [turn] == [turn] && [turn][1..] == [];
      assert Run(Take(p, turn), []) == Take(p, turn);
    } else {
      RunSnoc(Take(p, turns[0]), turns[1..], turn);
      assert (turns + [turn])[1..] == turns[1..] + [turn];
    }
  }

  /** The receiver's application has left and its greeting is under way or processed; the sender is in state s. */
  function Away(s: StreamState, via: Option<nat>, greeting: seq<Packet>, data: seq<Packet>, items: seq<Chunk>): Pair {
    Pair(Side(s, Some(0), via, None, [0], greeting),
         Side(NewStream(1).(reader := Returned, greeted := true, items := items), Some(0), None, None, [0], data), Net(1, {}))
  }

  lemma ReturnsFirst()
    ensures Take(Start(1, 1), Second(Local(DoReturn))) ==
            Start(1, 1).(b := Start(1, 1).b.(s := NewStream(1).(reader := Returned)))
  {
    assert Start(1, 1).a.inbox + [] == Start(1, 1).a.inbox;
  }

  lemma ThenGreets()
    ensures Take(Start(1, 1).(b := Start(1, 1).b.(s := NewStream(1).(reader := Returned))), Second(Local(DoGreet))) ==
            Away(NewStream(1), None, [Packet(0, Ctl(Flow))], [], [])
  {
    FlowIsPosted();
    assert [] + [Packet(0, Ctl(Flow))] == [Packet(0, Ctl(Flow))];
    assert Apply(NewStream(1).(reader := Returned), DoGreet) == Effect(NewStream(1).(reader := Returned, greeted := true), [Flow]);
  }

  lemma FlowIsPosted()
    ensures Post(Some(0), [Flow]) == [Packet(0, Ctl(Flow))]
  {
    assert Post(Some(0), [Flow]) == [Packet(0, Ctl(Flow))] + Post(Some(0), [Flow][1..]);
    assert Post(Some(0), [Flow][1..]) == [];
  }

  lemma GreetingArrives()
    ensures Take(Away(NewStream(1), None, [Packet(0, Ctl(Flow))], [], []), First(Deliver(0))) ==
            Away(NewStream(1).(flowEnabled := true), None, [], [], [])
  {
    assert [Packet(0, Ctl(Flow))][1..] == [];
  }

  lemma SenderRuns(s: StreamState, via: Option<nat>, data: seq<Packet>, items: seq<Chunk>, op: Op)
    requires op.DoSend? || op.DoChain?
    ensures Take(Away(s, via, [], data, items), First(Local(op))) ==
            Away(Apply(s, op).s, if op.DoChain? && s.chain.AtSend? then Some(0) else via, [], data, items)
  {
    assert data + [] == data;
  }

  lemma DataTaken(s: StreamState)
    requires s.chain.Sending?
    ensures Take(Away(s, Some(0), [], [], []), First(TakeData)) ==
            Away(s.SendOk(), Some(0), [], [Packet(0, Data(s.chain.chunk))], [])
  {
    assert [] + [Packet(0, Data(s.chain.chunk))] == [Packet(0, Data(s.chain.chunk))];
  }

  lemma DataArrives(s: StreamState, c: Chunk)
    ensures Take(Away(s, Some(0), [], [Packet(0, Data(c))], []), Second(Deliver(0))) == Away(s, Some(0), [], [], [c])
  {
    assert [Packet(0, Data(c))][1..] == [] && [] + [c] == [c];
  }

  /** The sender with a window of one byte, after the given operations. */
  function Metered(chain: Chain, queue: seq<Chunk>, inFlight: int, accepted: seq<Chunk>, handed: seq<Chunk>): StreamState {
    NewStream(1).(flowEnabled := true, chain := chain, queue := queue, inFlight := inFlight, accepted := accepted, handed := handed)
  }

  lemma FirstByte()
    ensures Apply(Metered(Idle, [], 0, [], []), DoSend([7])).s == Metered(Idle, [[7]], 0, [[7]], [])
    ensures Apply(Metered(Idle, [[7]], 0, [[7]], []), DoChain).s == Metered(AtPeer([7], false), [], 0, [[7]], [])
    ensures Apply(Metered(AtPeer([7], false), [], 0, [[7]], []), DoChain).s == Metered(AtFlow([7]), [], 0, [[7]], [])
    ensures Apply(Metered(AtFlow([7]), [], 0, [[7]], []), DoChain).s == Metered(AtPeer([7], true), [], 0, [[7]], [])
    ensures Apply(Metered(AtPeer([7], true), [], 0, [[7]], []), DoChain).s == Metered(AtSend([7]), [], 0, [[7]], [])
    ensures Apply(Metered(AtSend([7]), [], 0, [[7]], []), DoChain).s == Metered(Sending([7]), [], 1, [[7]], [])
  {
    assert [] + [[7]] == [[7]] && [[7]][1..] == [];
  }

  lemma SecondByte()
    ensures Metered(Sending([7]), [], 1, [[7]], []).SendOk() == Metered(Idle, [], 1, [[7]], [[7]])
    ensures Apply(Metered(Idle, [], 1, [[7]], [[7]]), DoSend([8])).s == Metered(Idle, [[8]], 1, [[7], [8]], [[7]])
    ensures Apply(Metered(Idle, [[8]], 1, [[7], [8]], [[7]]), DoChain).s == Metered(AtPeer([8], false), [], 1, [[7], [8]], [[7]])
    ensures Apply(Metered(AtPeer([8], false), [], 1, [[7], [8]], [[7]]), DoChain).s == Metered(AtFlow([8]), [], 1, [[7], [8]], [[7]])
    ensures Apply(Metered(AtFlow([8]), [], 1, [[7], [8]], [[7]]), DoChain).s == Metered(FlowParked([8]), [], 1, [[7], [8]], [[7]])
  {
    assert [] + [[7]] == [[7]] && [] + [[8]] == [[8]] && [[8]][1..] == [] && [[7]] + [[8]] == [[7], [8]];
  }

  /** One turn more of a run. */
  lemma OneMore(turns: seq<Turn>, p: Pair, turn: Turn, q: Pair)
    requires Run(Start(1, 1), turns) == p && Take(p, turn) == q
    ensures Run(Start(1, 1), turns + [turn]) == q
    ensures LossFree(turns) && Calm(turn.act) ==> LossFree(turns + [turn])
  {
    RunSnoc(Start(1, 1), turns, turn);
  }

  lemma AwayIsReached() returns (turns: seq<Turn>)
    ensures Run(Start(1, 1), turns) == Away(NewStream(1).(flowEnabled := true), None, [], [], []) && LossFree(turns)
  {
    ReturnsFirst();
    ThenGreets();
    GreetingArrives();
    var away := Start(1, 1).(b := Start(1, 1).b.(s := NewStream(1).(reader := Returned)));
    assert Run(Start(1, 1), []) == Start(1, 1);
    OneMore([], Start(1, 1), Second(Local(DoReturn)), away);
    turns := [] + [Second(Local(DoReturn))];
    OneMore(turns, away, Second(Local(DoGreet)), Away(NewStream(1), None, [Packet(0, Ctl(Flow))], [], []));
    turns := turns + [Second(Local(DoGreet))];
    OneMore(turns, Away(NewStream(1), None, [Packet(0, Ctl(Flow))], [], []), First(Deliver(0)),
            Away(NewStream(1).(flowEnabled := true), None, [], [], []));
    turns := turns + [First(Deliver(0))];
  }

  lemma FirstByteIsSent() returns (turns: seq<Turn>)
    ensures Run(Start(1, 1), turns) == Away(Metered(Sending([7]), [], 1, [[7]], []), Some(0), [], [], []) && LossFree(turns)
  {
    FirstByte();
    turns := AwayIsReached();
    var idle := Metered(Idle, [], 0, [], []);
    SenderRuns(idle, None, [], [], DoSend([7]));
    OneMore(turns, Away(idle, None, [], [], []), First(Local(DoSend([7]))),
            Away(Metered(Idle, [[7]], 0, [[7]], []), None, [], [], []));
    turns := turns + [First(Local(DoSend([7])))];
    turns := ChainRuns(turns, Metered(Idle, [[7]], 0, [[7]], []), Metered(AtPeer([7], false), [], 0, [[7]], []), None, [], []);
    turns := ChainRuns(turns, Metered(AtPeer([7], false), [], 0, [[7]], []), Metered(AtFlow([7]), [], 0, [[7]], []), None, [], []);
    turns := ChainRuns(turns, Metered(AtFlow([7]), [], 0, [[7]], []), Metered(AtPeer([7], true), [], 0, [[7]], []), None, [], []);
    turns := ChainRuns(turns, Metered(AtPeer([7], true), [], 0, [[7]], []), Metered(AtSend([7]), [], 0, [[7]], []), None, [], []);
    turns := ChainRuns(turns, Metered(AtSend([7]), [], 0, [[7]], []), Metered(Sending([7]), [], 1, [[7]], []), None, [], []);
  }

  lemma ChainRuns(turns: seq<Turn>, s: StreamState, t: StreamState, via: Option<nat>, data: seq<Packet>, items: seq<Chunk>)
    returns (more: seq<Turn>)
    requires Run(Start(1, 1), turns) == Away(s, via, [], data, items) && Apply(s, DoChain).s == t
    ensures Run(Start(1, 1), more) == Away(t, if s.chain.AtSend? then Some(0) else via, [], data, items)
    ensures LossFree(turns) ==> LossFree(more)
  {
    SenderRuns(s, via, data, items, DoChain);
    OneMore(turns, Away(s, via, [], data, items), First(Local(DoChain)),
            Away(t, if s.chain.AtSend? then Some(0) else via, [], data, items));
    more := turns + [First(Local(DoChain))];
  }

  /**
   * The run: the receiver's application leaves its loop before the sender's first byte
   * arrives, and a window of one byte parks the sender's second for good.
   */
  lemma StuckIsReached() returns (turns: seq<Turn>)
    ensures Stuck(Run(Start(1, 1), turns)) && Joined(Run(Start(1, 1), turns))
  {
    turns := FirstByteIsSent();
    SecondByte();
    var sent := Metered(Sending([7]), [], 1, [[7]], []);
    var idle := Metered(Idle, [], 1, [[7]], [[7]]);
    var parked := Metered(FlowParked([8]), [], 1, [[7], [8]], [[7]]);
    DataTaken(sent);
    OneMore(turns, Away(sent, Some(0), [], [], []), First(TakeData), Away(idle, Some(0), [], [Packet(0, Data([7]))], []));
    turns := turns + [First(TakeData)];
    DataArrives(idle, [7]);
    OneMore(turns, Away(idle, Some(0), [], [Packet(0, Data([7]))], []), Second(Deliver(0)), Away(idle, Some(0), [], [], [[7]]));
    turns := turns + [Second(Deliver(0))];
    SenderRuns(idle, Some(0), [], [[7]], DoSend([8]));
    var queued := Metered(Idle, [[8]], 1, [[7], [8]], [[7]]);
    OneMore(turns, Away(idle, Some(0), [], [], [[7]]), First(Local(DoSend([8]))), Away(queued, Some(0), [], [], [[7]]));
    turns := turns + [First(Local(DoSend([8])))];
    turns := ChainRuns(turns, queued, Metered(AtPeer([8], false), [], 1, [[7], [8]], [[7]]), Some(0), [], [[7]]);
    turns := ChainRuns(turns, Metered(AtPeer([8], false), [], 1, [[7], [8]], [[7]]),
                       Metered(AtFlow([8]), [], 1, [[7], [8]], [[7]]), Some(0), [], [[7]]);
    turns := ChainRuns(turns, Metered(AtFlow([8]), [], 1, [[7], [8]], [[7]]), parked, Some(0), [], [[7]]);
    assert Run(Start(1, 1), turns) == Away(parked, Some(0), [], [], [[7]]);
    StuckState(parked);
  }

  lemma StuckState(s: StreamState)
    requires s.chain.FlowParked? && s.status.Open?
    ensures Stuck(Away(s, Some(0), [], [], [[7]])) && Joined(Away(s, Some(0), [], [], [[7]]))
  {
  }
}
