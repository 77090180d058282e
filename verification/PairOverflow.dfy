/**
 * A run in which the receiver's queue exceeds the limit, by just what its sender forgot when the
 * channel was replaced: the bound of `PairBuffer` is attained.
 */
module PairOverflow {
  import opened Bytes
  import opened StreamModel
  import opened StreamRuns
  import opened StreamPair
  import opened StreamBooks
  import opened PairDelivery
  import opened PairBuffer
  import opened PairWakeup
  import opened PairCutShort

  /** A sender on its first channel, or on none, that has handed over its first byte. */
  function Sender(s: StreamState, link: Option<nat>): Side {
    Side(s, link, Some(0), None, Had(link), [])
  }

  /** A receiver whose application takes nothing. */
  function Receiver(s: StreamState, link: Option<nat>, inbox: seq<Packet>): Side {
    Side(s, link, None, None, Had(link), inbox)
  }

  function Holding(items: seq<Chunk>): StreamState {
    NewStream(1).(reader := Returned, greeted := true, items := items)
  }

  function Counting(): StreamState {
    Metered(Idle, [], 1, [[7]], [[7]])
  }

  function Forgetful(): StreamState {
    Metered(Idle, [], 0, [[7]], [[7]])
  }

  /** One turn more of a run, and what it forgets. */
  lemma Onward(turns: seq<Turn>, p: Pair, turn: Turn, q: Pair)
    requires Run(Start(1, 1), turns) == p && Take(p, turn) == q
    ensures Run(Start(1, 1), turns + [turn]) == q
    ensures Forgotten(Start(1, 1), turns + [turn]) == Forgotten(Start(1, 1), turns) + ForgetsIn(p, turn)
  {
    OneMore(turns, p, turn, q);
    ForgottenSnoc(Start(1, 1), turns, turn);
  }

  lemma FirstByteIsTaken()
    ensures Metered(Sending([7]), [], 1, [[7]], []).SendOk() == Counting()
  {
    assert [] + [[7]] == [[7]];
  }

  lemma FirstByteIsHeld() returns (turns: seq<Turn>)
    ensures Run(Start(1, 1), turns) == Pair(Sender(Counting(), Some(0)), Receiver(Holding([[7]]), Some(0), []), Net(1, {}))
    ensures Forgotten(Start(1, 1), turns) == 0
  {
    turns := FirstByteIsSent();
    FirstByteIsTaken();
    var sent := Metered(Sending([7]), [], 1, [[7]], []);
    DataTaken(sent);
    OneMore(turns, Away(sent, Some(0), [], [], []), First(TakeData), Away(Counting(), Some(0), [], [Packet(0, Data([7]))], []));
    turns := turns + [First(TakeData)];
    DataArrives(Counting(), [7]);
    OneMore(turns, Away(Counting(), Some(0), [], [Packet(0, Data([7]))], []), Second(Deliver(0)),
            Away(Counting(), Some(0), [], [], [[7]]));
    turns := turns + [Second(Deliver(0))];
    CalmStart(turns);
  }

  lemma CalmStart(turns: seq<Turn>)
    requires LossFree(turns)
    ensures Forgotten(Start(1, 1), turns) == 0
  {
    StartCalm(1, 1);
    NothingForgotten(Start(1, 1), turns);
  }

  lemma BothAreUnbound(r: StreamState)
    requires r == Holding([[7]])
    ensures Take(Pair(Sender(Counting(), Some(0)), Receiver(r, Some(0), []), Net(1, {})), First(Unbind(1))) ==
            Pair(Sender(Absent(Counting()), None), Receiver(r, Some(0), []), Net(1, {0}))
    ensures Take(Pair(Sender(Absent(Counting()), None), Receiver(r, Some(0), []), Net(1, {0})), Second(Unbind(1))) ==
            Pair(Sender(Absent(Counting()), None), Receiver(Absent(r), None, []), Net(1, {0}))
    ensures Take(Pair(Sender(Absent(Counting()), None), Receiver(Absent(r), None, []), Net(1, {0})), First(NewChannel)) ==
            Pair(Sender(Absent(Counting()), None), Receiver(Absent(r), None, []), Net(2, {0}))
  {
  }

  /** A sender on the second channel, to which the receiver's hello is under way. */
  function Rebound(s: StreamState, via: Option<nat>): Side {
    Side(s, Some(1), via, None, [0, 1], Hello())
  }

  lemma BothAreBoundAgain(r: StreamState)
    requires r == Holding([[7]])
    ensures Take(Pair(Sender(Absent(Counting()), None), Receiver(Absent(r), None, []), Net(2, {0})), First(Bind(1))) ==
            Pair(Sender(Forgetful(), Some(1)), Receiver(Absent(r), None, Hello()), Net(2, {0}))
    ensures Take(Pair(Sender(Forgetful(), Some(1)), Receiver(Absent(r), None, Hello()), Net(2, {0})), Second(Bind(1))) ==
            Pair(Rebound(Forgetful(), Some(0)), Receiver(r, Some(1), Hello()), Net(2, {0}))
  {
    HelloIsPosted();
    assert Absent(Counting()).PeerReconnected() == Effect(Forgetful(), [Resume, Flow]);
    assert Absent(r).PeerReconnected() == Effect(r, [Resume, Flow]);
    assert [] + Hello() == Hello();
  }

  lemma ChannelIsReplacedUnread() returns (turns: seq<Turn>)
    ensures Run(Start(1, 1), turns) ==
            Pair(Rebound(Forgetful(), Some(0)), Receiver(Holding([[7]]), Some(1), Hello()), Net(2, {0}))
    ensures Forgotten(Start(1, 1), turns) == 1
  {
    turns := FirstByteIsHeld();
    var r := Holding([[7]]);
    BothAreUnbound(r);
    BothAreBoundAgain(r);
    var away := Sender(Absent(Counting()), None);
    Onward(turns, Pair(Sender(Counting(), Some(0)), Receiver(r, Some(0), []), Net(1, {})), First(Unbind(1)),
            Pair(away, Receiver(r, Some(0), []), Net(1, {0})));
    turns := turns + [First(Unbind(1))];
    Onward(turns, Pair(away, Receiver(r, Some(0), []), Net(1, {0})), Second(Unbind(1)),
            Pair(away, Receiver(Absent(r), None, []), Net(1, {0})));
    turns := turns + [Second(Unbind(1))];
    Onward(turns, Pair(away, Receiver(Absent(r), None, []), Net(1, {0})), First(NewChannel),
            Pair(away, Receiver(Absent(r), None, []), Net(2, {0})));
    turns := turns + [First(NewChannel)];
    Onward(turns, Pair(away, Receiver(Absent(r), None, []), Net(2, {0})), First(Bind(1)),
            Pair(Sender(Forgetful(), Some(1)), Receiver(Absent(r), None, Hello()), Net(2, {0})));
    turns := turns + [First(Bind(1))];
    Onward(turns, Pair(Sender(Forgetful(), Some(1)), Receiver(Absent(r), None, Hello()), Net(2, {0})), Second(Bind(1)),
            Pair(Rebound(Forgetful(), Some(0)), Receiver(r, Some(1), Hello()), Net(2, {0})));
    turns := turns + [Second(Bind(1))];
  }

  lemma SenderGoesOn(before: seq<Turn>, s: StreamState, t: StreamState, via: Option<nat>, rcv: Side, op: Op)
    returns (turns: seq<Turn>)
    requires Run(Start(1, 1), before) == Pair(Rebound(s, via), rcv, Net(2, {0}))
    requires (op.DoSend? || op.DoChain?) && Apply(s, op).s == t
    ensures Run(Start(1, 1), turns) == Pair(Rebound(t, if op.DoChain? && s.chain.AtSend? then Some(1) else via), rcv, Net(2, {0}))
    ensures Forgotten(Start(1, 1), turns) == Forgotten(Start(1, 1), before)
  {
    assert rcv.inbox + [] == rcv.inbox;
    Onward(before, Pair(Rebound(s, via), rcv, Net(2, {0})), First(Local(op)),
            Pair(Rebound(t, if op.DoChain? && s.chain.AtSend? then Some(1) else via), rcv, Net(2, {0})));
    turns := before + [First(Local(op))];
  }

  /** The second byte, counted from zero. */
  function Second8(chain: Chain, inFlight: int): StreamState {
    Metered(chain, [], inFlight, [[7], [8]], [[7]])
  }

  lemma SecondByteAnew()
    ensures Apply(Forgetful(), DoSend([8])).s == Second8(Idle, 0).(queue := [[8]])
    ensures Apply(Second8(Idle, 0).(queue := [[8]]), DoChain).s == Second8(AtPeer([8], false), 0)
    ensures Apply(Second8(AtPeer([8], false), 0), DoChain).s == Second8(AtFlow([8]), 0)
    ensures Apply(Second8(AtFlow([8]), 0), DoChain).s == Second8(AtPeer([8], true), 0)
    ensures Apply(Second8(AtPeer([8], true), 0), DoChain).s == Second8(AtSend([8]), 0)
    ensures Apply(Second8(AtSend([8]), 0), DoChain).s == Second8(Sending([8]), 1)
  {
    assert [] + [[8]] == [[8]] && [[8]][1..] == [] && [[7]] + [[8]] == [[7], [8]];
  }

  lemma SecondByteIsHandedOver() returns (turns: seq<Turn>)
    ensures Run(Start(1, 1), turns) ==
            Pair(Rebound(Second8(Sending([8]), 1), Some(1)), Receiver(Holding([[7]]), Some(1), Hello()), Net(2, {0}))
    ensures Forgotten(Start(1, 1), turns) == 1
  {
    turns := ChannelIsReplacedUnread();
    SecondByteAnew();
    var rcv := Receiver(Holding([[7]]), Some(1), Hello());
    turns := SenderGoesOn(turns, Forgetful(), Second8(Idle, 0).(queue := [[8]]), Some(0), rcv, DoSend([8]));
    turns := SenderGoesOn(turns, Second8(Idle, 0).(queue := [[8]]), Second8(AtPeer([8], false), 0), Some(0), rcv, DoChain);
    turns := SenderGoesOn(turns, Second8(AtPeer([8], false), 0), Second8(AtFlow([8]), 0), Some(0), rcv, DoChain);
    turns := SenderGoesOn(turns, Second8(AtFlow([8]), 0), Second8(AtPeer([8], true), 0), Some(0), rcv, DoChain);
    turns := SenderGoesOn(turns, Second8(AtPeer([8], true), 0), Second8(AtSend([8]), 0), Some(0), rcv, DoChain);
    turns := SenderGoesOn(turns, Second8(AtSend([8]), 0), Second8(Sending([8]), 1), Some(0), rcv, DoChain);
  }

  lemma SecondByteIsTaken(rcv: Side)
    ensures Take(Pair(Rebound(Second8(Sending([8]), 1), Some(1)), rcv, Net(2, {0})), First(TakeData)) ==
            Pair(Rebound(Second8(Sending([8]), 1).SendOk(), Some(1)),
                 rcv.(inbox := rcv.inbox + [Packet(1, Data([8]))]), Net(2, {0}))
  {
  }

  /** The receiver's next frame, of the second channel. */
  lemma ReceiverTakes(snd: Side, r: StreamState, frame: Frame, rest: seq<Packet>)
    ensures var q := Take(Pair(snd, Receiver(r, Some(1), [Packet(1, frame)] + rest), Net(2, {0})), Second(Deliver(0)));
            q.a.s == snd.s && q == Pair(q.a, Receiver(Receive(r, frame).s, Some(1), rest), Net(2, {0}))
  {
    assert ([Packet(1, frame)] + rest)[1..] == rest;
  }

  lemma ReceiverHoldsBoth()
    ensures Receive(Holding([[7]]), Ctl(Resume)).s == Holding([[7]])
    ensures Receive(Holding([[7]]), Ctl(Flow)).s == Holding([[7]]).(flowEnabled := true)
    ensures Receive(Holding([[7]]).(flowEnabled := true), Data([8])).s.items == [[7], [8]]
    ensures Size([[7], [8]]) == 2
  {
    assert [[7]] + [[8]] == [[7], [8]];
    assert [[7], [8]][1..] == [[8]] && [[8]][1..] == [];
    assert Size([[8]]) == 1 + Size([]);
  }

  lemma LimitIsOne(s: StreamState)
    requires s.window == 1 && s.accepted == [[7], [8]]
    ensures Limit(s) == 1
  {
    assert [[7], [8]][1..] == [[8]] && [[8]][1..] == [];
    assert MaxLen([[8]]) == 1;
  }

  /** A limit of one byte, nothing sent unmetered, one byte forgotten, and two bytes in the queue. */
  lemma OverflowIsReached() returns (turns: seq<Turn>)
    ensures var p := Run(Start(1, 1), turns);
            && Size(p.b.s.items) == 2 && Limit(p.a.s) == 1
            && Size(p.b.s.items) == Limit(p.a.s) + p.a.s.uncounted + Forgotten(Start(1, 1), turns)
  {
    turns := SecondByteIsHandedOver();
    var r := Holding([[7]]);
    var done := Second8(Sending([8]), 1).SendOk();
    SecondByteIsTaken(Receiver(r, Some(1), Hello()));
    var data := Packet(1, Data([8]));
    var p := Pair(Rebound(done, Some(1)), Receiver(r, Some(1), Hello() + [data]), Net(2, {0}));
    Onward(turns, Pair(Rebound(Second8(Sending([8]), 1), Some(1)), Receiver(r, Some(1), Hello()), Net(2, {0})), First(TakeData), p);
    turns := turns + [First(TakeData)];
    ReceiverHoldsBoth();
    assert Hello() + [data] == [Packet(1, Ctl(Resume))] + [Packet(1, Ctl(Flow)), data];
    ReceiverTakes(p.a, r, Ctl(Resume), [Packet(1, Ctl(Flow)), data]);
    var q := Take(p, Second(Deliver(0)));
    Onward(turns, p, Second(Deliver(0)), q);
    turns := turns + [Second(Deliver(0))];
    assert [Packet(1, Ctl(Flow)), data] == [Packet(1, Ctl(Flow))] + [data];
    ReceiverTakes(q.a, r, Ctl(Flow), [data]);
    var u := Take(q, Second(Deliver(0)));
    Onward(turns, q, Second(Deliver(0)), u);
    turns := turns + [Second(Deliver(0))];
    assert [data] == [data] + [];
    ReceiverTakes(u.a, r.(flowEnabled := true), Data([8]), []);
    Onward(turns, u, Second(Deliver(0)), Take(u, Second(Deliver(0))));
    turns := turns + [Second(Deliver(0))];
    LimitIsOne(done);
  }
}
