/**
 * A run of the listener in which a stream comes to an older connection after a newer one: the
 * client had moved on from the first connection before its AUTH_READY was seen, the stream is
 * opened on the second, and is bound to the first when the second is lost. With what the pair
 * proves of two such histories, the application is given the client's chunks in the other order.
 */
module ListenerCrossing {
  import opened Bytes
  import opened CandidateCache
  import opened StreamLinks
  import opened Listener
  import StreamPair
  import PairCrossing

  // ----- one remote with two attempts -----

  function Two(first: Peer, second: Peer, trace: seq<Mark>): (s: ListenerState)
    ensures Wf(s)
  {
    NEW_LISTENER.(peers := [first, second], attempts := map[first.key := 0, second.key := 1], trace := trace)
  }

  lemma OnceMore(events: seq<Event>, s: ListenerState, event: Event, t: ListenerState)
    requires Wf(s) && Run(NEW_LISTENER, events) == s && Next(s, event) == t
    ensures Run(NEW_LISTENER, events + [event]) == t
  {
    RunSnoc(NEW_LISTENER, events, event);
  }

  /** A peer that has answered the challenge. */
  function Answered(key: Key): Peer {
    NewPeer(key).(challengeAnswered := true)
  }

  lemma OffersComeIn(first: Key, second: Key) returns (events: seq<Event>)
    requires first != second && first.remote == second.remote
    ensures Run(NEW_LISTENER, events) == Two(NewPeer(first), NewPeer(second), [])
  {
    var one := NEW_LISTENER.(peers := [NewPeer(first)], attempts := map[first := 0]);
    assert OfRemote(map[], first.remote) == {};
    assert Run(NEW_LISTENER, []) == NEW_LISTENER;
    OnceMore([], NEW_LISTENER, Offers(first), one);
    assert OfRemote(one.attempts, second.remote) == {first};
    OnceMore([Offers(first)], one, Offers(second), Two(NewPeer(first), NewPeer(second), []));
    events := [Offers(first)] + [Offers(second)];
  }

  /** A frame waits at the peer; it is the only one. */
  lemma Waits(s: ListenerState, p: nat, frame: Frame)
    requires Wf(s) && p < |s.peers| && s.peers[p].frames == []
    ensures Next(s, Arrives(p, frame)) == SetPeer(s, p, s.peers[p].(frames := [frame]))
  {
    assert [] + [frame] == [frame];
  }

  /** What is done with the only frame that waits. */
  lemma IsTaken(s: ListenerState, p: nat, frame: Frame)
    requires Wf(s) && p < |s.peers| && !s.peers[p].answering && s.peers[p].frames == [frame]
    ensures Next(s, Takes(p)) == OnFrame(SetPeer(s, p, s.peers[p].(frames := [])), p, frame)
  {
    assert [frame][1..] == [];
  }

  // ----- each peer answers its challenge -----

  lemma ChallengeSteps(s: ListenerState, p: nat, key: Key)
    requires Wf(s) && p < |s.peers| && s.peers[p] == NewPeer(key)
    ensures var waiting := SetPeer(s, p, NewPeer(key).(frames := [Challenge]));
            var answering := SetPeer(s, p, NewPeer(key).(answering := true));
            && Next(s, Arrives(p, Challenge)) == waiting && Next(waiting, Takes(p)) == answering
            && Next(answering, Answers(p, true)) == SetPeer(s.(trace := s.trace + [AnsweredChallenge(p)]), p, Answered(key))
  {
    Waits(s, p, Challenge);
    IsTaken(SetPeer(s, p, NewPeer(key).(frames := [Challenge])), p, Challenge);
  }

  lemma IsChallenged(before: seq<Event>, s: ListenerState, p: nat, key: Key) returns (events: seq<Event>)
    requires Wf(s) && Run(NEW_LISTENER, before) == s && p < |s.peers| && s.peers[p] == NewPeer(key)
    ensures Run(NEW_LISTENER, events) == SetPeer(s.(trace := s.trace + [AnsweredChallenge(p)]), p, Answered(key))
  {
    ChallengeSteps(s, p, key);
    var waiting := SetPeer(s, p, NewPeer(key).(frames := [Challenge]));
    var answering := SetPeer(s, p, NewPeer(key).(answering := true));
    OnceMore(before, s, Arrives(p, Challenge), waiting);
    events := before + [Arrives(p, Challenge)];
    OnceMore(events, waiting, Takes(p), answering);
    events := events + [Takes(p)];
    OnceMore(events, answering, Answers(p, true), SetPeer(s.(trace := s.trace + [AnsweredChallenge(p)]), p, Answered(key)));
    events := events + [Answers(p, true)];
  }

  // ----- the second is confirmed and lost -----

  /** The listener with the stream of the remote, with the given calls. */
  function Streaming(s: ListenerState, remote: string, link: Option<nat>, calls: seq<Call>): (t: ListenerState)
    requires Wf(s)
    ensures Wf(t)
  {
    s.(all := [Stream(remote, false, calls)], streams := map[remote := Entry(0, link)])
  }

  function Confirmed(key: Key): Peer {
    Answered(key).(authenticated := true)
  }

  /** A frame arrives at a peer where none waits, and is taken. */
  lemma FrameIsTaken(before: seq<Event>, s: ListenerState, p: nat, frame: Frame) returns (events: seq<Event>)
    requires Wf(s) && Run(NEW_LISTENER, before) == s
    requires p < |s.peers| && s.peers[p].frames == [] && !s.peers[p].answering
    ensures Run(NEW_LISTENER, events) == OnFrame(s, p, frame)
  {
    var waiting := SetPeer(s, p, s.peers[p].(frames := [frame]));
    Waits(s, p, frame);
    IsTaken(waiting, p, frame);
    assert SetPeer(waiting, p, waiting.peers[p].(frames := [])) == s;
    OnceMore(before, s, Arrives(p, frame), waiting);
    events := before + [Arrives(p, frame)];
    OnceMore(events, waiting, Takes(p), OnFrame(s, p, frame));
    events := events + [Takes(p)];
  }

  lemma SecondOpens(first: Peer, key: Key, trace: seq<Mark>)
    ensures OnFrame(Two(first, Answered(key), trace), 1, Ready) ==
            Streaming(Two(first, Confirmed(key), trace + [SawReady(1)]), key.remote, Some(1), [Opened(1)])
  {
  }

  lemma SecondDelivers(first: Peer, key: Key, trace: seq<Mark>, c: Chunk)
    ensures OnFrame(Streaming(Two(first, Confirmed(key), trace), key.remote, Some(1), [Opened(1)]), 1, Data(c)) ==
            Streaming(Two(first, Confirmed(key), trace + [HandedFrame(1)]), key.remote, Some(1), [Opened(1), Delivered(1, Data(c))])
  {
    assert [Opened(1)] + [Delivered(1, Data(c))] == [Opened(1), Delivered(1, Data(c))];
  }

  /** The state when the second connection is lost. */
  function Left(first: Peer, key: Key, trace: seq<Mark>, link: Option<nat>, calls: seq<Call>): (s: ListenerState)
    ensures Wf(s)
  {
    Streaming(Two(first, Confirmed(key).(closed := true), trace), key.remote, link, calls).(attempts := map[first.key := 0])
  }

  lemma SecondIsLost(first: Peer, key: Key, trace: seq<Mark>, calls: seq<Call>)
    requires first.key != key
    ensures Next(Streaming(Two(first, Confirmed(key), trace), key.remote, Some(1), calls), Closes(1)) ==
            Left(first, key, trace, None, calls + [Lost(1)])
  {
    var s := Streaming(Two(first, Confirmed(key), trace), key.remote, Some(1), calls);
    assert s.attempts - {key} == map[first.key := 0];
    assert Forget([], key) == [];
  }

  // ----- and the first comes late -----

  lemma FirstIsBound(first: Key, key: Key, trace: seq<Mark>, calls: seq<Call>)
    requires first.remote == key.remote
    ensures OnFrame(Left(Answered(first), key, trace, None, calls), 0, Ready) ==
            Left(Confirmed(first), key, trace + [SawReady(0)], Some(0), calls + [Rebound(0)])
  {
  }

  lemma FirstDelivers(first: Key, key: Key, trace: seq<Mark>, calls: seq<Call>, c: Chunk)
    requires first.remote == key.remote
    ensures OnFrame(Left(Confirmed(first), key, trace, Some(0), calls), 0, Data(c)) ==
            Left(Confirmed(first), key, trace + [HandedFrame(0)], Some(0), calls + [Delivered(0, Data(c))])
  {
  }

  /** What is done to the stream: chunk b comes on the later connection, and then a on the earlier. */
  function CrossedCalls(a: Chunk, b: Chunk): seq<Call> {
    [Opened(1), Delivered(1, Data(b)), Lost(1), Rebound(0), Delivered(0, Data(a))]
  }

  lemma BothAnswer(first: Key, second: Key) returns (events: seq<Event>)
    requires first != second && first.remote == second.remote
    ensures Run(NEW_LISTENER, events) == Two(Answered(first), Answered(second), [AnsweredChallenge(1), AnsweredChallenge(0)])
  {
    events := OffersComeIn(first, second);
    events := IsChallenged(events, Two(NewPeer(first), NewPeer(second), []), 1, second);
    assert [NewPeer(first), NewPeer(second)][1 := Answered(second)] == [NewPeer(first), Answered(second)];
    assert [] + [AnsweredChallenge(1)] == [AnsweredChallenge(1)];
    events := IsChallenged(events, Two(NewPeer(first), Answered(second), [AnsweredChallenge(1)]), 0, first);
    assert [NewPeer(first), Answered(second)][0 := Answered(first)] == [Answered(first), Answered(second)];
    assert [AnsweredChallenge(1)] + [AnsweredChallenge(0)] == [AnsweredChallenge(1), AnsweredChallenge(0)];
  }

  lemma LaterIsLost(first: Key, second: Key, b: Chunk) returns (events: seq<Event>, trace: seq<Mark>)
    requires first != second && first.remote == second.remote
    ensures Run(NEW_LISTENER, events) ==
            Left(Answered(first), second, trace, None, [Opened(1), Delivered(1, Data(b))] + [Lost(1)])
  {
    events := BothAnswer(first, second);
    trace := [AnsweredChallenge(1), AnsweredChallenge(0)];
    SecondOpens(Answered(first), second, trace);
    events := FrameIsTaken(events, Two(Answered(first), Answered(second), trace), 1, Ready);
    trace := trace + [SawReady(1)];
    SecondDelivers(Answered(first), second, trace, b);
    events := FrameIsTaken(events, Streaming(Two(Answered(first), Confirmed(second), trace), second.remote, Some(1), [Opened(1)]), 1, Data(b));
    trace := trace + [HandedFrame(1)];
    var calls := [Opened(1), Delivered(1, Data(b))];
    SecondIsLost(Answered(first), second, trace, calls);
    OnceMore(events, Streaming(Two(Answered(first), Confirmed(second), trace), second.remote, Some(1), calls), Closes(1),
             Left(Answered(first), second, trace, None, calls + [Lost(1)]));
    events := events + [Closes(1)];
  }

  /**
   * The run: of two attempts of one remote the one that was offered later is confirmed first,
   * delivers, and is lost; and the stream goes on with the earlier one.
   */
  lemma OlderComesLater(first: Key, second: Key, a: Chunk, b: Chunk) returns (events: seq<Event>)
    requires first != second && first.remote == second.remote
    ensures var s := Run(NEW_LISTENER, events);
            |s.all| == 1 && s.all[0].calls == CrossedCalls(a, b) && s.streams == map[first.remote := Entry(0, Some(0))]
  {
    var trace;
    events, trace := LaterIsLost(first, second, b);
    var calls := [Opened(1), Delivered(1, Data(b))] + [Lost(1)];
    FirstIsBound(first, second, trace, calls);
    events := FrameIsTaken(events, Left(Answered(first), second, trace, None, calls), 0, Ready);
    trace := trace + [SawReady(0)];
    FirstDelivers(first, second, trace, calls + [Rebound(0)], a);
    events := FrameIsTaken(events, Left(Confirmed(first), second, trace, Some(0), calls + [Rebound(0)]), 0, Data(a));
    assert calls + [Rebound(0)] + [Delivered(0, Data(a))] == CrossedCalls(a, b);
  }

  /** The listener and the pair do the same to the stream: what comes on the later connection is received first. */
  lemma CrossedAtTheListener(first: Key, second: Key) returns (events: seq<Event>, turns: seq<StreamPair.Turn>)
    requires first != second && first.remote == second.remote
    ensures var s := Run(NEW_LISTENER, events);
            |s.all| == 1 && s.all[0].calls == [Opened(1)] + PairCrossing.Calls(turns)
    ensures var p := StreamPair.Run(PairCrossing.Crossed(), turns);
            p.b.s.items == [[8], [7]] && p.a.s.accepted == [[7], [8]]
  {
    events := OlderComesLater(first, second, [7], [8]);
    turns := PairCrossing.BothAreReceived();
    assert [Opened(1)] + PairCrossing.Calls(turns) == CrossedCalls([7], [8]);
  }
}
