/**
 * Runs in which the application is told that the stream is done although something is missing:
 * the peer's grace is over, the stream is aborted while no `next` is parked, or the eof arrives
 * on a channel that replaced the one on which a chunk was lost.
 */
module PairCutShort {
  import opened Bytes
  import opened StreamModel
  import opened StreamRuns
  import opened StreamPair
  import opened PairDelivery
  import opened PairWakeup

  /** The application of the second side is told that the stream is done, and something is missing. */
  ghost predicate CutShort(p: Pair) {
    p.b.s.reader.Ended? && p.b.s.yielded != p.a.s.accepted
  }

  /** A region that posts nothing and is no part of the send chain or of close changes one stream. */
  lemma LocalTurn(p: Pair, op: Op)
    requires IsLocal(op) && Apply(p.a.s, op).out == [] && !op.DoChain? && !op.DoCloseDrained?
    ensures Do(p, Local(op)) == p.(a := p.a.(s := Apply(p.a.s, op).s))
  {
    assert p.b.inbox + [] == p.b.inbox;
  }

  /** The first side has accepted one chunk; the second is in the given state. */
  function Sent(a: StreamState, b: StreamState, link: Option<nat>, inbox: seq<Packet>, live: bool): Pair {
    Pair(Side(a, Some(0), None, None, [0], []), Side(b, link, None, None, [0], inbox), Net(1, if live then {} else {0}))
  }

  function Queued(): StreamState {
    NewStream(1).(queue := [[7]], accepted := [[7]])
  }

  lemma ChunkIsQueued()
    ensures Take(Start(1, 1), First(Local(DoSend([7])))) == Sent(Queued(), NewStream(1), Some(0), [], true)
  {
    assert [] + [[7]] == [[7]];
    LocalTurn(Start(1, 1), DoSend([7]));
  }

  lemma FourTurns(p: Pair, t: Turn, u: Turn, v: Turn, w: Turn, p1: Pair, p2: Pair, p3: Pair, p4: Pair)
    requires Take(p, t) == p1 && Take(p1, u) == p2 && Take(p2, v) == p3 && Take(p3, w) == p4
    ensures Run(p, [t, u, v, w]) == p4
  {
    RunCons(p, t, [u, v, w]);
    RunCons(p1, u, [v, w]);
    RunCons(p2, v, [w]);
    RunCons(p3, w, []);
  }

  lemma PeerIsAway(s: StreamState)
    ensures Take(Sent(s, NewStream(1).(reader := Waiting), Some(0), [], true), Second(Unbind(1))) ==
            Sent(s, NewStream(1).(reader := Waiting, connection := Reconnecting, timer := true), None, [], false)
  {
  }

  lemma GraceIsOver()
    ensures var b := NewStream(1).(reader := Waiting, connection := Reconnecting, timer := true).TimerFires();
            b.reader.Ended? && b.yielded == []
  {
  }

  /** The grace of a lost peer is over while the application waits for its chunk. */
  lemma LossCutsShort()
    ensures CutShort(Run(Start(1, 1), [First(Local(DoSend([7]))), Second(Local(DoNext)), Second(Unbind(1)), Second(Local(DoTimer))]))
  {
    var a, b := Queued(), NewStream(1);
    var waiting := b.(reader := Waiting);
    var away := waiting.(connection := Reconnecting, timer := true);
    ChunkIsQueued();
    LocalTurn(Swap(Sent(a, b, Some(0), [], true)), DoNext);
    PeerIsAway(a);
    LocalTurn(Swap(Sent(a, away, None, [], false)), DoTimer);
    FourTurns(Start(1, 1), First(Local(DoSend([7]))), Second(Local(DoNext)), Second(Unbind(1)), Second(Local(DoTimer)),
              Sent(a, b, Some(0), [], true), Sent(a, waiting, Some(0), [], true), Sent(a, away, None, [], false),
              Sent(a, away.TimerFires(), None, [], false));
    GraceIsOver();
  }

  lemma AbortLeavesQueued()
    ensures Take(Sent(Queued(), NewStream(1), Some(0), [], true), First(Local(DoAbort))) ==
            Sent(Queued().AbortCall().s, NewStream(1), Some(0), [Packet(0, Ctl(Abort))], true)
    ensures Queued().AbortCall().s.accepted == [[7]]
  {
    assert Post(Some(0), [Abort]) == [Packet(0, Ctl(Abort))] + Post(Some(0), [Abort][1..]);
    assert Post(Some(0), [Abort][1..]) == [];
    assert [] + [Packet(0, Ctl(Abort))] == [Packet(0, Ctl(Abort))];
  }

  lemma AbortArrives(s: StreamState)
    ensures Take(Sent(s, NewStream(1), Some(0), [Packet(0, Ctl(Abort))], true), Second(Deliver(0))) ==
            Sent(s, NewStream(1).RemoteAbort(), Some(0), [], true)
  {
    assert [Packet(0, Ctl(Abort))][1..] == [];
    assert Sent(s, NewStream(1), Some(0), [], true).a.inbox + [] == [];
  }

  lemma AbortedReads()
    ensures NewStream(1).RemoteAbort().reader == Resting(0)
    ensures var e := Apply(NewStream(1).RemoteAbort(), DoNext); e.out == [] && e.s.reader.Ended? && e.s.yielded == []
  {
  }

  /** The sender aborts before the application asks for its first chunk. */
  lemma AbortCutsShort()
    ensures CutShort(Run(Start(1, 1), [First(Local(DoSend([7]))), First(Local(DoAbort)), Second(Deliver(0)), Second(Local(DoNext))]))
  {
    var a, b := Queued().AbortCall().s, NewStream(1).RemoteAbort();
    ChunkIsQueued();
    AbortLeavesQueued();
    AbortArrives(a);
    AbortedReads();
    LocalTurn(Swap(Sent(a, b, Some(0), [], true)), DoNext);
    FourTurns(Start(1, 1), First(Local(DoSend([7]))), First(Local(DoAbort)), Second(Deliver(0)), Second(Local(DoNext)),
              Sent(Queued(), NewStream(1), Some(0), [], true), Sent(a, NewStream(1), Some(0), [Packet(0, Ctl(Abort))], true),
              Sent(a, b, Some(0), [], true), Sent(a, Apply(b, DoNext).s, Some(0), [], true));
  }

  // ----- an eof on a replaced channel -----

  /** The first side has handed over its one chunk. */
  function Done(): StreamState {
    NewStream(1).(accepted := [[7]], handed := [[7]], uncounted := 1)
  }

  function Absent(s: StreamState): StreamState {
    s.(connection := Reconnecting, timer := true)
  }

  function Over(a: StreamState, linkA: Option<nat>, eofVia: Option<nat>, toA: seq<Packet>,
                b: StreamState, linkB: Option<nat>, toB: seq<Packet>, net: Net): Pair {
    Pair(Side(a, linkA, Some(0), eofVia, Had(linkA), toA), Side(b, linkB, None, None, Had(linkB), toB), net)
  }

  /** The channels that a side has had once it is bound to the second. */
  function Had(link: Option<nat>): seq<nat> {
    if link == Some(1) then [0, 1] else [0]
  }

  /** What a side says when it is bound to the second channel. */
  function Hello(): seq<Packet> {
    [Packet(1, Ctl(Resume)), Packet(1, Ctl(Flow))]
  }

  lemma ChunkIsTaken()
    ensures Take(HandingByte(), First(TakeData)) ==
            Over(Done(), Some(0), None, [], NewStream(1), Some(0), [Packet(0, Data([7]))], Net(1, {}))
  {
    assert [] + [Packet(0, Data([7]))] == [Packet(0, Data([7]))];
    assert [] + [[7]] == [[7]];
  }

  lemma ChunkIsLost(a: StreamState, b: StreamState)
    ensures Take(Over(a, Some(0), None, [], b, Some(0), [Packet(0, Data([7]))], Net(1, {})), First(Lose(0))) ==
            Over(a, Some(0), None, [], b, Some(0), [Packet(0, Data([7]))], Net(1, {0}))
    ensures Take(Over(a, Some(0), None, [], b, Some(0), [Packet(0, Data([7]))], Net(1, {0})), Second(Drop(0))) ==
            Over(a, Some(0), None, [], b, Some(0), [], Net(1, {0}))
  {
    var q := [Packet(0, Data([7]))];
    assert q[..0] + q[1..] == [] && q + [] == q;
  }

  lemma ChannelIsReplaced()
    ensures Take(Over(Done(), Some(0), None, [], NewStream(1), Some(0), [], Net(1, {0})), First(Unbind(1))) ==
            Over(Absent(Done()), None, None, [], NewStream(1), Some(0), [], Net(1, {0}))
    ensures Take(Over(Absent(Done()), None, None, [], NewStream(1), Some(0), [], Net(1, {0})), Second(Unbind(1))) ==
            Over(Absent(Done()), None, None, [], Absent(NewStream(1)), None, [], Net(1, {0}))
    ensures Take(Over(Absent(Done()), None, None, [], Absent(NewStream(1)), None, [], Net(1, {0})), First(NewChannel)) ==
            Over(Absent(Done()), None, None, [], Absent(NewStream(1)), None, [], Net(2, {0}))
  {
  }

  lemma HelloIsPosted()
    ensures Post(Some(1), [Resume, Flow]) == Hello()
  {
    assert [Resume, Flow][1..] == [Flow] && [Flow][1..] == [];
    assert Post(Some(1), []) == [];
    assert Post(Some(1), [Flow]) == [Packet(1, Ctl(Flow))] + [];
  }

  lemma BothAreBound()
    ensures Take(Over(Absent(Done()), None, None, [], Absent(NewStream(1)), None, [], Net(2, {0})), First(Bind(1))) ==
            Over(Done(), Some(1), None, [], Absent(NewStream(1)), None, Hello(), Net(2, {0}))
    ensures Take(Over(Done(), Some(1), None, [], Absent(NewStream(1)), None, Hello(), Net(2, {0})), Second(Bind(1))) ==
            Over(Done(), Some(1), None, Hello(), NewStream(1), Some(1), Hello(), Net(2, {0}))
  {
    HelloIsPosted();
    assert Absent(Done()).PeerReconnected() == Effect(Done(), [Resume, Flow]);
    assert Absent(NewStream(1)).PeerReconnected() == Effect(NewStream(1), [Resume, Flow]);
    assert [] + Hello() == Hello();
  }

  function Draining(): StreamState {
    Done().(writeStatus := Closing, closer := Closer.Draining)
  }

  function Finished(): StreamState {
    Done().(writeStatus := Shut, closer := CloseDone)
  }

  lemma SenderCloses()
    ensures Take(Over(Done(), Some(1), None, Hello(), NewStream(1), Some(1), Hello(), Net(2, {0})), First(Local(DoClose))) ==
            Over(Draining(), Some(1), None, Hello(), NewStream(1), Some(1), Hello(), Net(2, {0}))
    ensures Take(Over(Draining(), Some(1), None, Hello(), NewStream(1), Some(1), Hello(), Net(2, {0})), First(Local(DoCloseDrained))) ==
            Over(Draining().(closer := SendingEof), Some(1), Some(1), Hello(), NewStream(1), Some(1), Hello(), Net(2, {0}))
  {
    assert Hello() + [] == Hello();
  }

  lemma EofIsSent()
    ensures Take(Over(Draining().(closer := SendingEof), Some(1), Some(1), Hello(), NewStream(1), Some(1), Hello(), Net(2, {0})),
                 First(TakeEof)) ==
            Over(Finished(), Some(1), Some(1), Hello(), NewStream(1), Some(1), Hello() + [Packet(1, Ctl(Eof))], Net(2, {0}))
  {
    assert Post(Some(1), [Eof]) == [Packet(1, Ctl(Eof))] + Post(Some(1), [Eof][1..]);
    assert Post(Some(1), [Eof][1..]) == [];
  }

  /** A control that the second side answers with at most one. */
  lemma ControlArrives(a: StreamState, toA: seq<Packet>, b: StreamState, control: Control, rest: seq<Packet>)
    requires |b.ReceiveControl(control).out| <= 1
    ensures var e := b.ReceiveControl(control);
            Take(Over(a, Some(1), Some(1), toA, b, Some(1), [Packet(1, Ctl(control))] + rest, Net(2, {0})), Second(Deliver(0))) ==
            Over(a, Some(1), Some(1), toA + (if e.out == [] then [] else [Packet(1, Ctl(e.out[0]))]), e.s, Some(1), rest, Net(2, {0}))
  {
    var e := b.ReceiveControl(control);
    assert ([Packet(1, Ctl(control))] + rest)[1..] == rest;
    if e.out != [] {
      assert e.out[1..] == [];
      assert Post(Some(1), e.out) == [Packet(1, Ctl(e.out[0]))] + Post(Some(1), e.out[1..]);
    }
  }

  lemma Metering()
    ensures NewStream(1).ReceiveControl(Resume) == Effect(NewStream(1), [Flow])
    ensures NewStream(1).ReceiveControl(Flow) == Effect(NewStream(1).(flowEnabled := true), [])
    ensures NewStream(1).(flowEnabled := true).ReceiveControl(Eof) ==
            Effect(NewStream(1).(flowEnabled := true, readClosed := true), [])
  {
  }

  lemma ReplacedSoFar() returns (turns: seq<Turn>)
    ensures Run(Start(1, 1), turns) == Over(Done(), Some(1), None, Hello(), NewStream(1), Some(1), Hello(), Net(2, {0}))
  {
    HandingByteIsReached();
    var step := First(Local(DoChain));
    turns := [First(Local(DoSend([7]))), step, step, step, step, step];
    ChunkIsTaken();
    var fresh0 := NewStream(1);
    var data := [Packet(0, Data([7]))];
    OneMore(turns, HandingByte(), First(TakeData), Over(Done(), Some(0), None, [], fresh0, Some(0), data, Net(1, {})));
    turns := turns + [First(TakeData)];
    ChunkIsLost(Done(), fresh0);
    OneMore(turns, Over(Done(), Some(0), None, [], fresh0, Some(0), data, Net(1, {})), First(Lose(0)),
            Over(Done(), Some(0), None, [], fresh0, Some(0), data, Net(1, {0})));
    turns := turns + [First(Lose(0))];
    OneMore(turns, Over(Done(), Some(0), None, [], fresh0, Some(0), data, Net(1, {0})), Second(Drop(0)),
            Over(Done(), Some(0), None, [], fresh0, Some(0), [], Net(1, {0})));
    turns := turns + [Second(Drop(0))];
    turns := ThenReplaced(turns);
  }

  lemma ThenReplaced(before: seq<Turn>) returns (turns: seq<Turn>)
    requires Run(Start(1, 1), before) == Over(Done(), Some(0), None, [], NewStream(1), Some(0), [], Net(1, {0}))
    ensures Run(Start(1, 1), turns) == Over(Done(), Some(1), None, Hello(), NewStream(1), Some(1), Hello(), Net(2, {0}))
  {
    ChannelIsReplaced();
    BothAreBound();
    turns := before;
    OneMore(turns, Over(Done(), Some(0), None, [], NewStream(1), Some(0), [], Net(1, {0})), First(Unbind(1)),
            Over(Absent(Done()), None, None, [], NewStream(1), Some(0), [], Net(1, {0})));
    turns := turns + [First(Unbind(1))];
    OneMore(turns, Over(Absent(Done()), None, None, [], NewStream(1), Some(0), [], Net(1, {0})), Second(Unbind(1)),
            Over(Absent(Done()), None, None, [], Absent(NewStream(1)), None, [], Net(1, {0})));
    turns := turns + [Second(Unbind(1))];
    OneMore(turns, Over(Absent(Done()), None, None, [], Absent(NewStream(1)), None, [], Net(1, {0})), First(NewChannel),
            Over(Absent(Done()), None, None, [], Absent(NewStream(1)), None, [], Net(2, {0})));
    turns := turns + [First(NewChannel)];
    OneMore(turns, Over(Absent(Done()), None, None, [], Absent(NewStream(1)), None, [], Net(2, {0})), First(Bind(1)),
            Over(Done(), Some(1), None, [], Absent(NewStream(1)), None, Hello(), Net(2, {0})));
    turns := turns + [First(Bind(1))];
    OneMore(turns, Over(Done(), Some(1), None, [], Absent(NewStream(1)), None, Hello(), Net(2, {0})), Second(Bind(1)),
            Over(Done(), Some(1), None, Hello(), NewStream(1), Some(1), Hello(), Net(2, {0})));
    turns := turns + [Second(Bind(1))];
  }

  lemma EofIsOnTheWay() returns (turns: seq<Turn>)
    ensures Run(Start(1, 1), turns) ==
            Over(Finished(), Some(1), Some(1), Hello(), NewStream(1), Some(1), Hello() + [Packet(1, Ctl(Eof))], Net(2, {0}))
  {
    turns := ReplacedSoFar();
    SenderCloses();
    EofIsSent();
    OneMore(turns, Over(Done(), Some(1), None, Hello(), NewStream(1), Some(1), Hello(), Net(2, {0})), First(Local(DoClose)),
            Over(Draining(), Some(1), None, Hello(), NewStream(1), Some(1), Hello(), Net(2, {0})));
    turns := turns + [First(Local(DoClose))];
    OneMore(turns, Over(Draining(), Some(1), None, Hello(), NewStream(1), Some(1), Hello(), Net(2, {0})), First(Local(DoCloseDrained)),
            Over(Draining().(closer := SendingEof), Some(1), Some(1), Hello(), NewStream(1), Some(1), Hello(), Net(2, {0})));
    turns := turns + [First(Local(DoCloseDrained))];
    OneMore(turns, Over(Draining().(closer := SendingEof), Some(1), Some(1), Hello(), NewStream(1), Some(1), Hello(), Net(2, {0})),
            First(TakeEof),
            Over(Finished(), Some(1), Some(1), Hello(), NewStream(1), Some(1), Hello() + [Packet(1, Ctl(Eof))], Net(2, {0})));
    turns := turns + [First(TakeEof)];
  }

  /**
   * The chunk was lost with its channel, and the eof arrives on the next one: the application
   * is told that the stream is done, without the chunk, although no stream failed.
   */
  lemma ReplacedChannelCutsShort() returns (turns: seq<Turn>)
    ensures CutShort(Run(Start(1, 1), turns)) && Run(Start(1, 1), turns).a.s.closer.CloseDone?
    ensures Run(Start(1, 1), turns).a.s.status.Open? && Run(Start(1, 1), turns).b.s.status.Open?
  {
    turns := EofIsOnTheWay();
    Metering();
    var flow, eof := Packet(1, Ctl(Flow)), Packet(1, Ctl(Eof));
    var b := NewStream(1);
    var metered := b.(flowEnabled := true);
    var ended := metered.(readClosed := true);
    assert Hello() + [eof] == [Packet(1, Ctl(Resume))] + [flow, eof];
    ControlArrives(Finished(), Hello(), b, Resume, [flow, eof]);
    OneMore(turns, Over(Finished(), Some(1), Some(1), Hello(), b, Some(1), Hello() + [eof], Net(2, {0})), Second(Deliver(0)),
            Over(Finished(), Some(1), Some(1), Hello() + [flow], b, Some(1), [flow, eof], Net(2, {0})));
    turns := turns + [Second(Deliver(0))];
    assert [flow, eof] == [flow] + [eof] && Hello() + [flow] + [] == Hello() + [flow];
    ControlArrives(Finished(), Hello() + [flow], b, Flow, [eof]);
    OneMore(turns, Over(Finished(), Some(1), Some(1), Hello() + [flow], b, Some(1), [flow, eof], Net(2, {0})), Second(Deliver(0)),
            Over(Finished(), Some(1), Some(1), Hello() + [flow], metered, Some(1), [eof], Net(2, {0})));
    turns := turns + [Second(Deliver(0))];
    assert [eof] == [eof] + [];
    ControlArrives(Finished(), Hello() + [flow], metered, Eof, []);
    OneMore(turns, Over(Finished(), Some(1), Some(1), Hello() + [flow], metered, Some(1), [eof], Net(2, {0})), Second(Deliver(0)),
            Over(Finished(), Some(1), Some(1), Hello() + [flow], ended, Some(1), [], Net(2, {0})));
    turns := turns + [Second(Deliver(0))];
    turns := ThenAsks(turns, ended);
  }

  lemma ThenAsks(before: seq<Turn>, ended: StreamState) returns (turns: seq<Turn>)
    requires ended == NewStream(1).(flowEnabled := true, readClosed := true)
    requires Run(Start(1, 1), before) ==
             Over(Finished(), Some(1), Some(1), Hello() + [Packet(1, Ctl(Flow))], ended, Some(1), [], Net(2, {0}))
    ensures Run(Start(1, 1), turns) ==
            Over(Finished(), Some(1), Some(1), Hello() + [Packet(1, Ctl(Flow))], ended.(reader := Ended), Some(1), [], Net(2, {0}))
  {
    var p := Over(Finished(), Some(1), Some(1), Hello() + [Packet(1, Ctl(Flow))], ended, Some(1), [], Net(2, {0}));
    LocalTurn(Swap(p), DoNext);
    OneMore(before, p, Second(Local(DoNext)), p.(b := p.b.(s := ended.(reader := Ended))));
    turns := before + [Second(Local(DoNext))];
  }
}
