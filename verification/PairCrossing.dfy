/**
 * A run in which nothing is lost and the order is not kept: the two sides are bound to the same
 * two channels in opposite orders. The sender moved on from its first channel; the receiver was
 * opened on the second, and comes to the first when that one is lost to it.
 */
module PairCrossing {
  import opened Bytes
  import opened StreamModel
  import opened StreamRuns
  import opened StreamPair
  import opened PairCredit
  import opened PairDelivery
  import opened PairWakeup
  import opened PairCutShort
  import opened PairOrder
  import opened PairLoss
  import L = StreamLinks
  import LinkHistory

  /** The first stream is opened on the first channel, the second on the second. */
  function Crossed(): Pair {
    Pair(Fresh(1, 0), Fresh(1, 1), Net(2, {}))
  }

  /** What a run does to the second stream. */
  function Calls(turns: seq<Turn>): seq<L.Call> {
    LinkHistory.OnSecond(LinkHistory.History(Crossed(), turns))
  }

  function CallsIn(p: Pair, turn: Turn): seq<L.Call> {
    match turn
    case First(_) => []
    case Second(act) => LinkHistory.CallsOf(p.b, act, p.net)
  }

  lemma CallsSnoc(turns: seq<Turn>, turn: Turn)
    ensures Calls(turns + [turn]) == Calls(turns) + CallsIn(Run(Crossed(), turns), turn)
  {
    var p, log := Run(Crossed(), turns), LinkHistory.History(Crossed(), turns);
    var events := LinkHistory.EventsOf(p, turn);
    LinkHistory.GoesOn(Crossed(), turns, [turn]);
    LinkHistory.OneTurn(p, turn);
    OneCall(p, turn);
    if events == [] {
      assert log + events == log && Calls(turns) + [] == Calls(turns);
    } else {
      assert events == [events[0]];
      LinkHistory.OnSnoc(log, events[0]);
    }
  }

  lemma OneCall(p: Pair, turn: Turn)
    ensures var events := LinkHistory.EventsOf(p, turn);
            && |events| <= 1
            && CallsIn(p, turn) == if events == [] || events[0].OfFirst? then [] else [events[0].call]
  {
  }

  lemma OneOn(turns: seq<Turn>, p: Pair, turn: Turn, q: Pair)
    requires Run(Crossed(), turns) == p && Take(p, turn) == q
    ensures Run(Crossed(), turns + [turn]) == q
    ensures Calls(turns + [turn]) == Calls(turns) + CallsIn(p, turn)
  {
    RunSnoc(Crossed(), turns, turn);
    CallsSnoc(turns, turn);
  }

  lemma QuietOn(turns: seq<Turn>, p: Pair, act: Act, q: Pair)
    requires Run(Crossed(), turns) == p && Take(p, First(act)) == q
    ensures Run(Crossed(), turns + [First(act)]) == q && Calls(turns + [First(act)]) == Calls(turns)
  {
    OneOn(turns, p, First(act), q);
    assert Calls(turns) + [] == Calls(turns);
  }

  // ----- a chunk is sent -----

  /** A stream that can send at once and does not count. */
  predicate Ready(s: StreamState) {
    && s.chain.Idle? && s.queue == [] && s.connection.Connected? && s.status.Open?
    && s.writeStatus.Writable? && !s.flowEnabled
  }

  function Accepting(s: StreamState, c: Chunk, chain: Chain): StreamState {
    s.(accepted := s.accepted + [c], chain := chain)
  }

  function HasSent(s: StreamState, c: Chunk): StreamState {
    s.(accepted := s.accepted + [c], handed := s.handed + [c], uncounted := s.uncounted + |c|)
  }

  lemma QueueStep(s: StreamState, c: Chunk)
    requires Ready(s)
    ensures Apply(s, DoSend(c)).s == Accepting(s, c, Idle).(queue := [c])
    ensures Apply(Accepting(s, c, Idle).(queue := [c]), DoChain).s == Accepting(s, c, AtPeer(c, false))
  {
    assert [] + [c] == [c] && [c][1..] == [];
  }

  lemma TestSteps(s: StreamState, c: Chunk)
    requires Ready(s)
    ensures Apply(Accepting(s, c, AtPeer(c, false)), DoChain).s == Accepting(s, c, AtFlow(c))
    ensures Apply(Accepting(s, c, AtFlow(c)), DoChain).s == Accepting(s, c, AtPeer(c, true))
    ensures Apply(Accepting(s, c, AtPeer(c, true)), DoChain).s == Accepting(s, c, AtSend(c))
  {
  }

  lemma HandOverStep(s: StreamState, c: Chunk)
    requires Ready(s)
    ensures Apply(Accepting(s, c, AtSend(c)), DoChain).s ==
            Accepting(s, c, Sending(c)).(uncounted := s.uncounted + |c|)
    ensures Accepting(s, c, Sending(c)).(uncounted := s.uncounted + |c|).SendOk() == HasSent(s, c)
  {
  }

  lemma SenderStep(before: seq<Turn>, p: Pair, t: StreamState, op: Op) returns (turns: seq<Turn>)
    requires Run(Crossed(), before) == p
    requires (op.DoSend? || op.DoChain?) && Apply(p.a.s, op).s == t
    ensures Run(Crossed(), turns) ==
            p.(a := p.a.(s := t, via := if op.DoChain? && p.a.s.chain.AtSend? then p.a.link else p.a.via))
    ensures Calls(turns) == Calls(before)
  {
    assert p.b.inbox + [] == p.b.inbox;
    QuietOn(before, p, Local(op), p.(a := p.a.(s := t, via := if op.DoChain? && p.a.s.chain.AtSend? then p.a.link else p.a.via)));
    turns := before + [First(Local(op))];
  }

  lemma ChunkTravels(before: seq<Turn>, p: Pair, c: Chunk) returns (turns: seq<Turn>)
    requires Run(Crossed(), before) == p && Ready(p.a.s) && p.a.link.Some?
    ensures Run(Crossed(), turns) ==
            p.(a := p.a.(s := HasSent(p.a.s, c), via := p.a.link),
               b := p.b.(inbox := p.b.inbox + [Packet(p.a.link.value, Data(c))]))
    ensures Calls(turns) == Calls(before)
  {
    var s := p.a.s;
    QueueStep(s, c);
    TestSteps(s, c);
    HandOverStep(s, c);
    turns := SenderStep(before, p, Accepting(s, c, Idle).(queue := [c]), DoSend(c));
    turns := SenderStep(turns, p.(a := p.a.(s := Accepting(s, c, Idle).(queue := [c]))), Accepting(s, c, AtPeer(c, false)), DoChain);
    turns := SenderStep(turns, p.(a := p.a.(s := Accepting(s, c, AtPeer(c, false)))), Accepting(s, c, AtFlow(c)), DoChain);
    turns := SenderStep(turns, p.(a := p.a.(s := Accepting(s, c, AtFlow(c)))), Accepting(s, c, AtPeer(c, true)), DoChain);
    turns := SenderStep(turns, p.(a := p.a.(s := Accepting(s, c, AtPeer(c, true)))), Accepting(s, c, AtSend(c)), DoChain);
    var sending := Accepting(s, c, Sending(c)).(uncounted := s.uncounted + |c|);
    turns := SenderStep(turns, p.(a := p.a.(s := Accepting(s, c, AtSend(c)))), sending, DoChain);
    var q := p.(a := p.a.(s := sending, via := p.a.link));
    QuietOn(turns, q, TakeData,
          p.(a := p.a.(s := HasSent(s, c), via := p.a.link),
             b := p.b.(inbox := p.b.inbox + [Packet(p.a.link.value, Data(c))])));
    turns := turns + [First(TakeData)];
  }

  // ----- a side changes its channel -----

  function HelloOn(c: nat): seq<Packet> {
    [Packet(c, Ctl(Resume)), Packet(c, Ctl(Flow))]
  }

  lemma HelloOnIsPosted(c: nat)
    ensures Post(Some(c), [Resume, Flow]) == HelloOn(c)
  {
    assert [Resume, Flow][1..] == [Flow] && [Flow][1..] == [];
    assert Post(Some(c), []) == [];
    assert Post(Some(c), [Flow]) == [Packet(c, Ctl(Flow))] + [];
  }

  /** An open, connected stream that counts nothing and has nobody parked. */
  predicate Calm0(s: StreamState) {
    s.status.Open? && s.connection.Connected? && !s.timer && s.inFlight == 0 && s.chain.Idle?
  }

  lemma ComesBack(s: StreamState)
    requires Calm0(s)
    ensures s.PeerDisconnected(1) == Absent(s) && Absent(s).PeerReconnected() == Effect(s, [Resume, Flow])
  {
  }

  /** The first side leaves its channel for another. */
  lemma SenderMoves(before: seq<Turn>, p: Pair, c: nat) returns (turns: seq<Turn>)
    requires Run(Crossed(), before) == p && Calm0(p.a.s) && p.a.link.Some? && c < p.net.channels && c !in p.a.had
    ensures Run(Crossed(), turns) ==
            Pair(p.a.(link := Some(c), had := p.a.had + [c]), p.b.(inbox := p.b.inbox + HelloOn(c)),
                 p.net.(dead := p.net.dead + {p.a.link.value}))
    ensures Calls(turns) == Calls(before)
  {
    ComesBack(p.a.s);
    HelloOnIsPosted(c);
    assert p.b.inbox + [] == p.b.inbox;
    var net := p.net.(dead := p.net.dead + {p.a.link.value});
    var q := Pair(p.a.(link := None, s := Absent(p.a.s)), p.b, net);
    QuietOn(before, p, Unbind(1), q);
    turns := before + [First(Unbind(1))];
    QuietOn(turns, q, Bind(c), Pair(p.a.(link := Some(c), had := p.a.had + [c]), p.b.(inbox := p.b.inbox + HelloOn(c)), net));
    turns := turns + [First(Bind(c))];
  }

  lemma ReceiverMoves(before: seq<Turn>, p: Pair, c: nat) returns (turns: seq<Turn>)
    requires Run(Crossed(), before) == p && Calm0(p.b.s) && p.b.link.Some? && c < p.net.channels && c !in p.b.had
    ensures Run(Crossed(), turns) ==
            Pair(p.a.(inbox := p.a.inbox + HelloOn(c)), p.b.(link := Some(c), had := p.b.had + [c]),
                 p.net.(dead := p.net.dead + {p.b.link.value}))
    ensures Calls(turns) == Calls(before) + [L.Lost(p.b.link.value), L.Rebound(c)]
  {
    ComesBack(p.b.s);
    HelloOnIsPosted(c);
    assert p.a.inbox + [] == p.a.inbox;
    var net := p.net.(dead := p.net.dead + {p.b.link.value});
    var q := Pair(p.a, p.b.(link := None, s := Absent(p.b.s)), net);
    OneOn(before, p, Second(Unbind(1)), q);
    turns := before + [Second(Unbind(1))];
    OneOn(turns, q, Second(Bind(c)), Pair(p.a.(inbox := p.a.inbox + HelloOn(c)), p.b.(link := Some(c), had := p.b.had + [c]), net));
    turns := turns + [Second(Bind(c))];
  }

  // ----- the receiver takes and reads -----

  lemma ReceiverStep(before: seq<Turn>, p: Pair, act: Act, t: StreamState, inbox: seq<Packet>, sent: seq<Packet>)
    returns (turns: seq<Turn>)
    requires Run(Crossed(), before) == p
    requires Move(p.b, act, p.net) == Moved(p.b.(s := t, inbox := inbox), sent, p.net)
    ensures Run(Crossed(), turns) == Pair(p.a.(inbox := p.a.inbox + sent), p.b.(s := t, inbox := inbox), p.net)
    ensures Calls(turns) == Calls(before) + LinkHistory.CallsOf(p.b, act, p.net)
  {
    OneOn(before, p, Second(act), Pair(p.a.(inbox := p.a.inbox + sent), p.b.(s := t, inbox := inbox), p.net));
    turns := before + [Second(act)];
  }

  function B(items: seq<Chunk>, yielded: seq<Chunk>, reader: Reader): StreamState {
    NewStream(1).(items := items, yielded := yielded, reader := reader)
  }

  function A(accepted: seq<Chunk>): StreamState {
    NewStream(1).(accepted := accepted, handed := accepted, uncounted := |accepted|)
  }

  const FIRST: Packet := Packet(0, Data([7]))
  const SECOND: Packet := Packet(1, Data([8]))

  /** Both chunks are on the way, on two channels, and the receiver is bound to the second. */
  function BothSent(): Pair {
    Pair(Side(A([[7], [8]]), Some(1), Some(1), None, [0, 1], []),
         Side(NewStream(1), Some(1), None, None, [1], [FIRST] + HelloOn(1) + [SECOND]), Net(2, {0}))
  }

  lemma BothAreSent() returns (turns: seq<Turn>)
    ensures Run(Crossed(), turns) == BothSent() && Calls(turns) == []
  {
    assert Run(Crossed(), []) == Crossed();
    turns := ChunkTravels([], Crossed(), [7]);
    assert [] + [[7]] == [[7]] && [] + [FIRST] == [FIRST];
    var p1 := Pair(Side(A([[7]]), Some(0), Some(0), None, [0], []), Side(NewStream(1), Some(1), None, None, [1], [FIRST]), Net(2, {}));
    assert HasSent(NewStream(1), [7]) == A([[7]]);
    turns := SenderMoves(turns, p1, 1);
    var p2 := Pair(Side(A([[7]]), Some(1), Some(0), None, [0, 1], []),
                   Side(NewStream(1), Some(1), None, None, [1], [FIRST] + HelloOn(1)), Net(2, {0}));
    assert [0] + [1] == [0, 1];
    turns := ChunkTravels(turns, p2, [8]);
    assert [[7]] + [[8]] == [[7], [8]];
    assert HasSent(A([[7]]), [8]) == A([[7], [8]]);
  }

  lemma SecondComesFirst()
    ensures Move(BothSent().b, Deliver(3), BothSent().net) ==
            Moved(BothSent().b.(s := B([[8]], [], Resting(0)), inbox := [FIRST] + HelloOn(1)), [], BothSent().net)
    ensures LinkHistory.CallsOf(BothSent().b, Deliver(3), BothSent().net) == [L.Delivered(1, L.Data([8]))]
  {
    var q := BothSent().b.inbox;
    assert q == [FIRST, Packet(1, Ctl(Resume)), Packet(1, Ctl(Flow)), SECOND];
    assert Without(q, 3) == [FIRST] + HelloOn(1);
    assert [] + [[8]] == [[8]];
    assert InTurn(q, 3);
  }

  /** The receiver has taken the second chunk and is bound to the first channel. */
  function Behind(): Pair {
    Pair(Side(A([[7], [8]]), Some(1), Some(1), None, [0, 1], HelloOn(0)),
         Side(B([[8]], [], Resting(0)), Some(0), None, None, [1, 0], [FIRST] + HelloOn(1)), Net(2, {0, 1}))
  }

  lemma FirstComesSecond()
    ensures Move(Behind().b, Deliver(0), Behind().net) ==
            Moved(Behind().b.(s := B([[8], [7]], [], Resting(0)), inbox := HelloOn(1)), [], Behind().net)
    ensures LinkHistory.CallsOf(Behind().b, Deliver(0), Behind().net) == [L.Delivered(0, L.Data([7]))]
  {
    var q := Behind().b.inbox;
    assert q == [FIRST, Packet(1, Ctl(Resume)), Packet(1, Ctl(Flow))];
    assert Without(q, 0) == HelloOn(1);
    assert [[8]] + [[7]] == [[8], [7]];
  }

  lemma SecondIsReceived() returns (turns: seq<Turn>)
    ensures Run(Crossed(), turns) ==
            Pair(BothSent().a, BothSent().b.(s := B([[8]], [], Resting(0)), inbox := [FIRST] + HelloOn(1)), BothSent().net)
    ensures Calls(turns) == [L.Delivered(1, L.Data([8]))]
  {
    turns := BothAreSent();
    SecondComesFirst();
    turns := ReceiverStep(turns, BothSent(), Deliver(3), B([[8]], [], Resting(0)), [FIRST] + HelloOn(1), []);
    assert [] + [L.Delivered(1, L.Data([8]))] == [L.Delivered(1, L.Data([8]))];
  }

  lemma ReceiverIsBehind() returns (turns: seq<Turn>)
    ensures Run(Crossed(), turns) == Behind()
    ensures Calls(turns) == [L.Delivered(1, L.Data([8])), L.Lost(1), L.Rebound(0)]
  {
    turns := SecondIsReceived();
    var p := Pair(BothSent().a, BothSent().b.(s := B([[8]], [], Resting(0)), inbox := [FIRST] + HelloOn(1)), BothSent().net);
    turns := ReceiverMoves(turns, p, 0);
    assert [1] + [0] == [1, 0] && [] + HelloOn(0) == HelloOn(0) && {0} + {1} == {0, 1};
    assert [L.Delivered(1, L.Data([8]))] + [L.Lost(1), L.Rebound(0)] == [L.Delivered(1, L.Data([8])), L.Lost(1), L.Rebound(0)];
  }

  lemma BothAreReceived() returns (turns: seq<Turn>)
    ensures Run(Crossed(), turns) == Behind().(b := Behind().b.(s := B([[8], [7]], [], Resting(0)), inbox := HelloOn(1)))
    ensures Calls(turns) == [L.Delivered(1, L.Data([8])), L.Lost(1), L.Rebound(0), L.Delivered(0, L.Data([7]))]
  {
    turns := ReceiverIsBehind();
    FirstComesSecond();
    turns := ReceiverStep(turns, Behind(), Deliver(0), B([[8], [7]], [], Resting(0)), HelloOn(1), []);
    assert HelloOn(0) + [] == HelloOn(0);
    assert [L.Delivered(1, L.Data([8])), L.Lost(1), L.Rebound(0)] + [L.Delivered(0, L.Data([7]))] ==
           [L.Delivered(1, L.Data([8])), L.Lost(1), L.Rebound(0), L.Delivered(0, L.Data([7]))];
  }

  /** What the receiver has said on the first channel when its application has read both chunks. */
  function Said(): seq<Packet> {
    HelloOn(0) + [Packet(0, Ctl(Ack(1)))]
  }

  /** The application has read both chunks. */
  function BothRead(): Pair {
    Behind().(a := Behind().a.(inbox := Said()), b := Behind().b.(s := B([], [[8], [7]], Resting(1)), inbox := HelloOn(1)))
  }

  lemma FirstRead()
    ensures Apply(B([[8], [7]], [], Resting(0)), DoNext) == Effect(B([[7]], [[8]], Resting(1)), [])
    ensures Apply(B([[7]], [[8]], Resting(1)), DoNext) == Effect(B([[7]], [[8]], Acking), [Ack(1)])
  {
    assert [[8], [7]][1..] == [[7]] && [] + [[8]] == [[8]];
  }

  lemma SecondRead()
    ensures Apply(B([[7]], [[8]], Acking), DoReader) == Effect(B([], [[8], [7]], Resting(1)), [])
  {
    assert [[7]][1..] == [] && [[8]] + [[7]] == [[8], [7]];
  }

  lemma AckIsPosted()
    ensures Post(Some(0), [Ack(1)]) == [Packet(0, Ctl(Ack(1)))]
  {
    assert [Ack(1)][1..] == [];
    assert Post(Some(0), [Ack(1)]) == [Packet(0, Ctl(Ack(1)))] + Post(Some(0), [Ack(1)][1..]);
  }

  lemma BothAreRead() returns (turns: seq<Turn>)
    ensures Run(Crossed(), turns) == BothRead()
  {
    turns := BothAreReceived();
    FirstRead();
    SecondRead();
    AckIsPosted();
    var p := Behind().(b := Behind().b.(s := B([[8], [7]], [], Resting(0)), inbox := HelloOn(1)));
    assert HelloOn(0) + [] == HelloOn(0) && Said() + [] == Said();
    turns := ReceiverStep(turns, p, Local(DoNext), B([[7]], [[8]], Resting(1)), HelloOn(1), []);
    p := Behind().(b := Behind().b.(s := B([[7]], [[8]], Resting(1)), inbox := HelloOn(1)));
    turns := ReceiverStep(turns, p, Local(DoNext), B([[7]], [[8]], Acking), HelloOn(1), [Packet(0, Ctl(Ack(1)))]);
    p := Behind().(a := Behind().a.(inbox := Said()), b := Behind().b.(s := B([[7]], [[8]], Acking), inbox := HelloOn(1)));
    turns := ReceiverStep(turns, p, Local(DoReader), B([], [[8], [7]], Resting(1)), HelloOn(1), []);
  }

  // ----- the end -----

  const EOF: Packet := Packet(2, Ctl(Eof))

  function Closing(closer: Closer, write: WriteStatus): StreamState {
    A([[7], [8]]).(closer := closer, writeStatus := write)
  }

  function OnThird(s: StreamState, eofVia: Option<nat>, toB: seq<Packet>): Pair {
    Pair(Side(s, Some(2), Some(1), eofVia, [0, 1, 2], Said()),
         Side(B([], [[8], [7]], Resting(1)), Some(0), None, None, [1, 0], toB), Net(3, {0, 1}))
  }

  lemma ThirdChannel(before: seq<Turn>) returns (turns: seq<Turn>)
    requires Run(Crossed(), before) == BothRead()
    ensures Run(Crossed(), turns) == OnThird(A([[7], [8]]), None, HelloOn(1) + HelloOn(2))
  {
    var p := BothRead().(net := Net(3, {0, 1}));
    assert HelloOn(1) + [] == HelloOn(1);
    OneOn(before, BothRead(), First(NewChannel), p);
    turns := before + [First(NewChannel)];
    turns := SenderMoves(turns, p, 2);
    assert [0, 1] + [2] == [0, 1, 2] && {0, 1} + {1} == {0, 1};
  }

  lemma EofPosted()
    ensures Post(Some(2), [Eof]) == [EOF]
  {
    assert Post(Some(2), [Eof]) == [EOF] + Post(Some(2), [Eof][1..]);
    assert [Eof][1..] == [];
  }

  lemma CloseSteps(toB: seq<Packet>)
    ensures Take(OnThird(A([[7], [8]]), None, toB), First(Local(DoClose))) == OnThird(Closing(Draining, WriteStatus.Closing), None, toB)
    ensures Take(OnThird(Closing(Draining, WriteStatus.Closing), None, toB), First(Local(DoCloseDrained))) ==
            OnThird(Closing(SendingEof, WriteStatus.Closing), Some(2), toB)
  {
    assert toB + [] == toB;
  }

  lemma EofStep(toB: seq<Packet>)
    ensures Take(OnThird(Closing(SendingEof, WriteStatus.Closing), Some(2), toB), First(TakeEof)) ==
            OnThird(Closing(CloseDone, Shut), Some(2), toB + [EOF])
  {
    EofPosted();
  }

  lemma SenderEnds(before: seq<Turn>) returns (turns: seq<Turn>)
    requires Run(Crossed(), before) == OnThird(A([[7], [8]]), None, HelloOn(1) + HelloOn(2))
    ensures Run(Crossed(), turns) == OnThird(Closing(CloseDone, Shut), Some(2), HelloOn(1) + HelloOn(2) + [EOF])
  {
    var toB := HelloOn(1) + HelloOn(2);
    CloseSteps(toB);
    EofStep(toB);
    RunSnoc(Crossed(), before, First(Local(DoClose)));
    turns := before + [First(Local(DoClose))];
    RunSnoc(Crossed(), turns, First(Local(DoCloseDrained)));
    turns := turns + [First(Local(DoCloseDrained))];
    RunSnoc(Crossed(), turns, First(TakeEof));
    turns := turns + [First(TakeEof)];
  }

  /** The receiver is bound to the third channel, with the eof on the way. */
  function EofUnderWay(): Pair {
    Pair(Side(Closing(CloseDone, Shut), Some(2), Some(1), Some(2), [0, 1, 2], Said() + HelloOn(2)),
         Side(B([], [[8], [7]], Resting(1)), Some(2), None, None, [1, 0, 2], HelloOn(1) + HelloOn(2) + [EOF]), Net(3, {0, 1}))
  }

  lemma EofIsUnderWay() returns (turns: seq<Turn>)
    ensures Run(Crossed(), turns) == EofUnderWay()
  {
    turns := BothAreRead();
    turns := ThirdChannel(turns);
    turns := SenderEnds(turns);
    turns := ReceiverMoves(turns, OnThird(Closing(CloseDone, Shut), Some(2), HelloOn(1) + HelloOn(2) + [EOF]), 2);
    assert [1, 0] + [2] == [1, 0, 2] && {0, 1} + {0} == {0, 1};
  }

  lemma EofIsInTurn()
    ensures EofArrives(EofUnderWay(), 4)
    ensures Take(EofUnderWay(), Second(Deliver(4))).b.s == B([], [[8], [7]], Resting(1)).(readClosed := true)
    ensures Take(EofUnderWay(), Second(Deliver(4))).a.s == EofUnderWay().a.s
  {
    var q := EofUnderWay().b.inbox;
    assert q == [Packet(1, Ctl(Resume)), Packet(1, Ctl(Flow)), Packet(2, Ctl(Resume)), Packet(2, Ctl(Flow)), EOF];
    assert InTurn(q, 4);
  }

  lemma EndSteps(p: Pair)
    requires p.b.s == B([], [[8], [7]], Resting(1)).(readClosed := true)
    ensures var q := Run(p, [Second(Local(DoNext)), Second(Local(DoReader))]);
            q.b.s.reader.Ended? && q.b.s.yielded == [[8], [7]] && q.a.s == p.a.s
  {
    var q := Take(p, Second(Local(DoNext)));
    assert q.b.s == p.b.s.(reader := Acking) && q.a.s == p.a.s;
    RunCons(p, Second(Local(DoNext)), [Second(Local(DoReader))]);
    RunCons(q, Second(Local(DoReader)), []);
  }

  /**
   * The run: the chunks were sent as 7, 8, none was lost, the eof has arrived, and the application,
   * told that the stream is done, was given 8, 7.
   */
  lemma OrderIsLost() returns (turns: seq<Turn>, later: seq<Turn>)
    ensures Opening(Crossed()) && EofArrives(Run(Crossed(), turns), 4) && Lost(Crossed(), turns) == 0
    ensures var q := Run(Take(Run(Crossed(), turns), Second(Deliver(4))), later);
            q.b.s.reader.Ended? && q.a.s.accepted == [[7], [8]] && q.b.s.yielded == [[8], [7]]
    ensures !SameOrder(Run(Crossed(), turns).a.had, Run(Crossed(), turns).b.had)
  {
    turns := EofIsUnderWay();
    later := [Second(Local(DoNext)), Second(Local(DoReader))];
    EofIsInTurn();
    EndSteps(Take(EofUnderWay(), Second(Deliver(4))));
    EofIsCompleteExactly(Crossed(), turns, 4, later);
    assert EofUnderWay().a.had[1] == EofUnderWay().b.had[0] && EofUnderWay().a.had[0] == EofUnderWay().b.had[1];
  }
}
