/**
 * When a stream of the listener is bound to a connection that is already gone: exactly which
 * step does it, and a run that reaches it.
 */
module ListenerLinks {
  import opened Bytes
  import opened CandidateCache
  import opened Listener
  import opened StreamLinks
  import opened ListenerRuns

  /** Whoever a stream is bound to is open. */
  ghost predicate LinksLive(streams: map<string, Entry>, peers: seq<Peer>) {
    forall remote :: remote in streams && streams[remote].link.Some? ==>
      streams[remote].link.value < |peers| && !peers[streams[remote].link.value].closed
  }

  /** A closed peer is about to be taken for a new connection. */
  predicate LateReady(s: ListenerState, p: nat)
    requires p < |s.peers|
  {
    var peer := s.peers[p];
    && peer.closed && !peer.answering && peer.frames != [] && peer.frames[0] == Ready
    && peer.challengeAnswered && !peer.authenticated
    && (peer.key.remote in s.streams ==> s.streams[peer.key.remote].link.None?)
  }

  lemma SetPeerLinks(streams: map<string, Entry>, peers: seq<Peer>, p: nat, peer: Peer)
    requires LinksLive(streams, peers) && p < |peers| && peer.closed == peers[p].closed
    ensures LinksLive(streams, peers[p := peer])
  {
  }

  lemma LinkIsStanding(s: ListenerState, remote: string)
    requires Inv(s) && remote in s.streams && s.streams[remote].link.Some?
    ensures s.streams[remote].stream < |s.all| && !s.all[s.streams[remote].stream].closed
    ensures Standing(s.streams[remote].link.value, remote, s.peers)
  {
    assert EntryOk(s.streams[remote], remote, s.all);
    var stream := s.all[s.streams[remote].stream];
    assert CallsOk(stream, s.peers);
    BoundIsBinder(stream.calls);
  }

  lemma ClosePeerLinks(s: ListenerState, p: nat)
    requires Inv(s) && Wf(s) && p < |s.peers| && LinksLive(s.streams, s.peers)
    ensures LinksLive(ClosePeer(s, p).streams, ClosePeer(s, p).peers)
  {
    if !s.peers[p].closed {
      var t := ClosePeer(s, p);
      var remote := s.peers[p].key.remote;
      forall r | r in s.streams && s.streams[r].link == Some(p)
        ensures r == remote && !s.all[s.streams[r].stream].closed
      {
        LinkIsStanding(s, r);
      }
      assert t.peers == s.peers[p := s.peers[p].(closed := true)];
      if remote in s.streams && s.streams[remote].link == Some(p) {
        assert t.streams == s.streams[remote := s.streams[remote].(link := None)];
      } else {
        assert t.streams == s.streams;
      }
    }
  }

  lemma BindLinks(streams: map<string, Entry>, peers: seq<Peer>, remote: string, sid: nat, p: nat)
    requires LinksLive(streams, peers) && p < |peers|
    ensures LinksLive(streams[remote := Entry(sid, Some(p))], peers) <==> !peers[p].closed
  {
    var more := streams[remote := Entry(sid, Some(p))];
    assert remote in more && more[remote].link == Some(p);
  }

  lemma ActivateLinks(s: ListenerState, p: nat)
    requires Inv(s) && Wf(s) && p < |s.peers| && LinksLive(s.streams, s.peers)
    requires s.peers[p].key.remote in s.streams ==> s.streams[s.peers[p].key.remote].link != Some(p)
    ensures LinksLive(ActivateStream(s, p).streams, ActivateStream(s, p).peers) <==>
            !s.peers[p].closed || (s.peers[p].key.remote in s.streams && s.streams[s.peers[p].key.remote].link.Some?)
  {
    var remote := s.peers[p].key.remote;
    if remote !in s.streams {
      BindLinks(s.streams, s.peers, remote, |s.all|, p);
    } else {
      assert EntryOk(s.streams[remote], remote, s.all);
      if s.streams[remote].link.Some? {
        ClosePeerLinks(s, p);
      } else {
        BindLinks(s.streams, s.peers, remote, s.streams[remote].stream, p);
      }
    }
  }

  lemma HandFrameLinks(s: ListenerState, p: nat, frame: Frame)
    requires Inv(s) && Wf(s) && p < |s.peers| && LinksLive(s.streams, s.peers)
    ensures LinksLive(HandFrame(s, p, frame).streams, HandFrame(s, p, frame).peers)
  {
  }

  lemma ReadyLinks(s: ListenerState, p: nat)
    requires Inv(s) && Wf(s) && p < |s.peers| && LinksLive(s.streams, s.peers)
    requires s.peers[p].challengeAnswered && !s.peers[p].authenticated
    ensures LinksLive(OnFrame(s, p, Ready).streams, OnFrame(s, p, Ready).peers) <==>
            !(s.peers[p].closed && (s.peers[p].key.remote in s.streams ==> s.streams[s.peers[p].key.remote].link.None?))
  {
    var more := s.peers[p := s.peers[p].(authenticated := true)];
    ReadyKeeps(s, p, more);
    SetPeerLinks(s.streams, s.peers, p, more[p]);
    UnboundLink(s, p);
    ActivateLinks(s.(peers := more, trace := s.trace + [SawReady(p)]), p);
  }

  lemma OnFrameLinks(s: ListenerState, p: nat, frame: Frame)
    requires Inv(s) && Wf(s) && p < |s.peers| && LinksLive(s.streams, s.peers)
    ensures LinksLive(OnFrame(s, p, frame).streams, OnFrame(s, p, frame).peers) <==>
            !(frame == Ready && s.peers[p].closed && s.peers[p].challengeAnswered && !s.peers[p].authenticated
              && (s.peers[p].key.remote in s.streams ==> s.streams[s.peers[p].key.remote].link.None?))
  {
    var peer := s.peers[p];
    match frame {
      case Undecodable => ClosePeerLinks(s, p);
      case Challenge => SetPeerLinks(s.streams, s.peers, p, peer.(answering := true));
      case Ready =>
        if !peer.challengeAnswered {
          ClosePeerLinks(s, p);
        } else if !peer.authenticated {
          ReadyLinks(s, p);
        }
      case Data(_) => if peer.authenticated { HandFrameLinks(s, p, frame); } else { ClosePeerLinks(s, p); }
      case Control => if peer.authenticated { HandFrameLinks(s, p, frame); } else { ClosePeerLinks(s, p); }
      case Response => if peer.authenticated { HandFrameLinks(s, p, frame); } else { ClosePeerLinks(s, p); }
    }
  }

  lemma UnboundLink(s: ListenerState, p: nat)
    requires Inv(s) && Unbound(s.all, p)
    ensures forall remote :: remote in s.streams ==> s.streams[remote].link != Some(p)
  {
    forall remote | remote in s.streams
      ensures s.streams[remote].link != Some(p)
    {
      assert EntryOk(s.streams[remote], remote, s.all);
      BoundIsBinder(s.all[s.streams[remote].stream].calls);
    }
  }

  lemma TakeFrameLinks(s: ListenerState, p: nat)
    requires Inv(s) && Wf(s) && p < |s.peers| && LinksLive(s.streams, s.peers)
    ensures LinksLive(TakeFrame(s, p).streams, TakeFrame(s, p).peers) <==> !LateReady(s, p)
  {
    var peer := s.peers[p];
    if !peer.answering && peer.frames != [] {
      var rest := peer.(frames := peer.frames[1..]);
      SetPeerKeeps(s, p, rest);
      SetPeerLinks(s.streams, s.peers, p, rest);
      OnFrameLinks(SetPeer(s, p, rest), p, peer.frames[0]);
    }
  }

  lemma AnswerSettlesLinks(s: ListenerState, p: nat, ok: bool)
    requires Inv(s) && Wf(s) && p < |s.peers| && LinksLive(s.streams, s.peers)
    ensures LinksLive(AnswerSettles(s, p, ok).streams, AnswerSettles(s, p, ok).peers)
  {
    var peer := s.peers[p];
    if peer.answering {
      if ok {
        SetPeerLinks(s.streams, s.peers, p, peer.(answering := false, challengeAnswered := true));
      } else {
        SetPeerKeeps(s, p, peer.(answering := false));
        SetPeerLinks(s.streams, s.peers, p, peer.(answering := false));
        ClosePeerLinks(SetPeer(s, p, peer.(answering := false)), p);
      }
    }
  }

  lemma OfferLinks(s: ListenerState, key: Key)
    requires Wf(s) && LinksLive(s.streams, s.peers)
    ensures LinksLive(AnswerOffer(s, key).streams, AnswerOffer(s, key).peers)
  {
  }

  lemma CandidateLinks(s: ListenerState, key: Key, trickle: bool)
    requires Wf(s) && LinksLive(s.streams, s.peers)
    ensures LinksLive(ReceiveCandidate(s, key, trickle).streams, ReceiveCandidate(s, key, trickle).peers)
  {
  }

  lemma ByeLinks(s: ListenerState, key: Key)
    requires Inv(s) && Wf(s) && LinksLive(s.streams, s.peers)
    ensures LinksLive(ReceiveBye(s, key).streams, ReceiveBye(s, key).peers)
  {
    CachedWithout(s.cache, s.attempts, s.peers, key);
    if key in s.attempts {
      ClosePeerLinks(s.(cache := Forget(s.cache, key)), s.attempts[key]);
    }
  }

  lemma AppliedLinks(s: ListenerState, p: nat)
    requires Wf(s) && p < |s.peers| && LinksLive(s.streams, s.peers)
    ensures LinksLive(OfferApplied(s, p).streams, OfferApplied(s, p).peers)
  {
  }

  lemma HandNextLinks(s: ListenerState, p: nat)
    requires Wf(s) && p < |s.peers| && LinksLive(s.streams, s.peers)
    ensures LinksLive(HandNext(s, p).streams, HandNext(s, p).peers)
  {
  }

  lemma ArriveLinks(s: ListenerState, p: nat, frame: Frame)
    requires Wf(s) && p < |s.peers| && LinksLive(s.streams, s.peers)
    ensures LinksLive(Next(s, Arrives(p, frame)).streams, Next(s, Arrives(p, frame)).peers)
  {
  }

  lemma FinalizeLinks(s: ListenerState, sid: nat)
    requires Wf(s) && sid < |s.all| && LinksLive(s.streams, s.peers)
    ensures LinksLive(Finalize(s, sid).streams, Finalize(s, sid).peers)
  {
  }

  /**
   * A stream comes to be bound to a closed peer in exactly one way: the receive chain of a
   * peer that was closed after its challenge was answered still takes an AUTH_READY, and
   * nobody else is bound.
   */
  lemma DeadLinkExactly(s: ListenerState, event: Event)
    requires Inv(s) && Wf(s) && LinksLive(s.streams, s.peers)
    ensures LinksLive(Next(s, event).streams, Next(s, event).peers) <==>
            !(event.Takes? && event.peer < |s.peers| && LateReady(s, event.peer))
  {
    match event {
      case Offers(key) => OfferLinks(s, key);
      case Candidates(key, trickle) => CandidateLinks(s, key, trickle);
      case Byes(key) => ByeLinks(s, key);
      case Applied(p) => if p < |s.peers| { AppliedLinks(s, p); }
      case Hands(p) => if p < |s.peers| { HandNextLinks(s, p); }
      case Arrives(p, frame) => if p < |s.peers| { ArriveLinks(s, p, frame); }
      case Takes(p) => if p < |s.peers| { TakeFrameLinks(s, p); }
      case Answers(p, ok) => if p < |s.peers| { AnswerSettlesLinks(s, p, ok); }
      case Closes(p) => if p < |s.peers| { ClosePeerLinks(s, p); }
      case Expires(key) =>
      case Finalizes(sid) => if sid < |s.all| { FinalizeLinks(s, sid); }
      case Stops =>
    }
  }

  /** No step of the run is such a late AUTH_READY. */
  predicate Prompt(s: ListenerState, events: seq<Event>)
    requires Wf(s)
    decreases |events|
  {
    events == [] ||
    (!(events[0].Takes? && events[0].peer < |s.peers| && LateReady(s, events[0].peer)) &&
     Prompt(Next(s, events[0]), events[1..]))
  }

  /** Without one, every stream is bound to an open connection or to none, all the time. */
  lemma {:induction false} PromptRunsStayLive(s: ListenerState, events: seq<Event>)
    requires Inv(s) && Wf(s) && LinksLive(s.streams, s.peers) && Prompt(s, events)
    ensures LinksLive(Run(s, events).streams, Run(s, events).peers)
    decreases |events|
  {
    if events == [] {
    } else {
      DeadLinkExactly(s, events[0]);
      NextKeeps(s, events[0]);
      PromptRunsStayLive(Next(s, events[0]), events[1..]);
    }
  }

  // ----- such a run -----

  /** The listener with one attempt, in the given state. */
  function One(peer: Peer, trace: seq<Mark>): (s: ListenerState)
    ensures Wf(s)
  {
    NEW_LISTENER.(peers := [peer], attempts := map[peer.key := 0], trace := trace)
  }

  lemma RunCons(s: ListenerState, event: Event, rest: seq<Event>)
    requires Wf(s)
    ensures Run(s, [event] + rest) == Run(Next(s, event), rest)
  {
    assert ([event] + rest)[1..] == rest;
  }

  lemma FrameArrives(peer: Peer, trace: seq<Mark>, frame: Frame)
    ensures Next(One(peer, trace), Arrives(0, frame)) == One(peer.(frames := peer.frames + [frame]), trace)
  {
  }

  lemma ChallengeIsAnswered(key: Key)
    ensures Next(NEW_LISTENER, Offers(key)) == One(NewPeer(key), [])
    ensures Next(One(NewPeer(key).(frames := [Challenge]), []), Takes(0)) == One(NewPeer(key).(answering := true), [])
    ensures Next(One(NewPeer(key).(answering := true), []), Answers(0, true)) ==
            One(NewPeer(key).(challengeAnswered := true), [AnsweredChallenge(0)])
  {
    assert OfRemote(map[], key.remote) == {};
    assert [Challenge][1..] == [];
  }

  lemma BadFrameCloses(peer: Peer)
    requires !peer.closed && !peer.answering && peer.frames == [Undecodable, Ready]
    ensures Next(One(peer, [AnsweredChallenge(0)]), Takes(0)) ==
            One(peer.(frames := [Ready], closed := true), [AnsweredChallenge(0)]).(attempts := map[])
  {
    assert [Undecodable, Ready][1..] == [Ready];
    var s := One(peer, [AnsweredChallenge(0)]);
    assert s.attempts - {peer.key} == map[];
  }

  lemma ReadyBinds(peer: Peer)
    requires peer.closed && !peer.answering && peer.challengeAnswered && !peer.authenticated && peer.frames == [Ready]
    ensures var s := One(peer, [AnsweredChallenge(0)]).(attempts := map[]);
            var t := Next(s, Takes(0));
            && |t.peers| == 1 && t.peers[0].closed
            && peer.key.remote in t.streams && t.streams[peer.key.remote].link == Some(0)
  {
  }

  /**
   * The run that binds a closed peer: a frame that does not decode and an AUTH_READY wait on
   * one receive chain; the first closes the peer, and the second binds it to a new stream.
   */
  lemma LateReadyIsReached(key: Key) returns (events: seq<Event>)
    ensures var s := Run(NEW_LISTENER, events);
            |s.peers| == 1 && s.peers[0].closed && key.remote in s.streams && s.streams[key.remote].link == Some(0)
  {
    var answered := NewPeer(key).(challengeAnswered := true);
    var mark := [AnsweredChallenge(0)];
    ChallengeIsAnswered(key);
    FrameArrives(NewPeer(key), [], Challenge);
    FrameArrives(answered, mark, Undecodable);
    FrameArrives(answered.(frames := [Undecodable]), mark, Ready);
    BadFrameCloses(answered.(frames := [Undecodable, Ready]));
    ReadyBinds(answered.(frames := [Ready], closed := true));
    assert [] + [Challenge] == [Challenge] && [] + [Undecodable] == [Undecodable] && [Undecodable] + [Ready] == [Undecodable, Ready];
    var closed := One(answered.(frames := [Ready], closed := true), mark).(attempts := map[]);
    events := [Takes(0)];
    RunCons(closed, Takes(0), []);
    assert [Takes(0)] + [] == [Takes(0)];
    RunCons(One(answered.(frames := [Undecodable, Ready]), mark), Takes(0), events);
    events := [Takes(0)] + events;
    RunCons(One(answered.(frames := [Undecodable]), mark), Arrives(0, Ready), events);
    events := [Arrives(0, Ready)] + events;
    RunCons(One(answered, mark), Arrives(0, Undecodable), events);
    events := [Arrives(0, Undecodable)] + events;
    RunCons(One(NewPeer(key).(answering := true), []), Answers(0, true), events);
    events := [Answers(0, true)] + events;
    RunCons(One(NewPeer(key).(frames := [Challenge]), []), Takes(0), events);
    events := [Takes(0)] + events;
    RunCons(One(NewPeer(key), []), Arrives(0, Challenge), events);
    events := [Arrives(0, Challenge)] + events;
    RunCons(NEW_LISTENER, Offers(key), events);
    events := [Offers(key)] + events;
  }
}
