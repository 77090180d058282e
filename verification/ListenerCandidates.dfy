/**
 * Where the candidates of the listener are: each one that arrives is passed to the connection
 * of at most one attempt, at most once.
 */
module ListenerCandidates {
  import opened Bytes
  import opened CandidateCache
  import opened Listener
  import opened StreamLinks

  /** How often a message is cached. */
  function CountCached(groups: Groups, m: Message): nat {
    if groups == [] then 0 else multiset(groups[0].messages)[m] + CountCached(groups[1..], m)
  }

  /** How often a peer was given a message, or is to be. */
  function CountOf(peer: Peer, m: Message): nat {
    multiset(peer.handing)[m] + multiset(peer.given)[m]
  }

  function CountGiven(peers: seq<Peer>, m: Message): nat {
    if peers == [] then 0 else CountOf(peers[0], m) + CountGiven(peers[1..], m)
  }

  function Placed(s: ListenerState, m: Message): nat {
    CountCached(s.cache, m) + CountGiven(s.peers, m)
  }

  /** A peer is handed cached candidates only after its offer was applied. */
  ghost predicate HandedLater(s: ListenerState) {
    forall p :: 0 <= p < |s.peers| && !s.peers[p].handedOver ==> s.peers[p].handing == []
  }

  ghost predicate Once(s: ListenerState) {
    forall m: Message :: Placed(s, m) <= if m < s.arrivals then 1 else 0
  }

  // ----- counting -----

  lemma {:induction false} ForgetCounts(groups: Groups, key: Key, m: Message)
    ensures CountCached(Forget(groups, key), m) + multiset(Messages(groups, key))[m] == CountCached(groups, m)
  {
    if groups != [] && groups[0].key != key {
      ForgetCounts(groups[1..], key, m);
    }
  }

  lemma {:induction false} JoinCounts(groups: Groups, key: Key, message: Message, m: Message)
    ensures CountCached(Join(groups, key, message), m) <= CountCached(groups, m) + (if m == message then 1 else 0)
  {
    if groups != [] {
      if groups[0].key != key {
        JoinCounts(groups[1..], key, message, m);
      }
    }
  }

  lemma {:induction false} AppendCounts(groups: Groups, g: Group, m: Message)
    ensures CountCached(groups + [g], m) == CountCached(groups, m) + multiset(g.messages)[m]
  {
    if groups == [] {
      assert groups + [g] == [g];
    } else {
      AppendCounts(groups[1..], g, m);
      assert (groups + [g])[1..] == groups[1..] + [g];
    }
  }

  lemma QueueCounts(groups: Groups, key: Key, message: Message, m: Message)
    ensures CountCached(Queue(groups, key, message), m) <= CountCached(groups, m) + (if m == message then 1 else 0)
  {
    if Has(groups, key) {
      JoinCounts(groups, key, message, m);
    } else {
      AppendCounts(if |groups| >= MAX_PENDING_CANDIDATE_SESSIONS then groups[1..] else groups, Group(key, [message]), m);
    }
  }

  lemma {:induction false} SetPeerCounts(peers: seq<Peer>, p: nat, peer: Peer, m: Message)
    requires p < |peers|
    ensures CountGiven(peers[p := peer], m) == CountGiven(peers, m) - CountOf(peers[p], m) + CountOf(peer, m)
  {
    if p > 0 {
      SetPeerCounts(peers[1..], p - 1, peer, m);
      assert peers[p := peer][1..] == peers[1..][p - 1 := peer];
    } else {
      assert peers[p := peer][1..] == peers[1..];
    }
  }

  lemma {:induction false} AppendPeerCounts(peers: seq<Peer>, peer: Peer, m: Message)
    ensures CountGiven(peers + [peer], m) == CountGiven(peers, m) + CountOf(peer, m)
  {
    if peers == [] {
      assert peers + [peer] == [peer];
    } else {
      AppendPeerCounts(peers[1..], peer, m);
      assert (peers + [peer])[1..] == peers[1..] + [peer];
    }
  }

  lemma {:induction false} SamePeersCount(peers: seq<Peer>, more: seq<Peer>, m: Message)
    requires |peers| == |more|
    requires forall p :: 0 <= p < |peers| ==> more[p].handing == peers[p].handing && more[p].given == peers[p].given
    ensures CountGiven(more, m) == CountGiven(peers, m)
  {
    if peers != [] {
      SamePeersCount(peers[1..], more[1..], m);
    }
  }

  // ----- steps that leave the candidates alone -----

  /** Candidates stay where they are; at most the cached ones of one attempt are forgotten. */
  ghost predicate Settled(s: ListenerState, t: ListenerState, key: Key) {
    && t.arrivals == s.arrivals
    && (t.cache == s.cache || t.cache == Forget(s.cache, key))
    && |t.peers| == |s.peers|
    && (forall p :: 0 <= p < |s.peers| ==>
          t.peers[p].handing == s.peers[p].handing && t.peers[p].given == s.peers[p].given &&
          t.peers[p].handedOver == s.peers[p].handedOver && t.peers[p].key == s.peers[p].key)
  }

  lemma SettledKeeps(s: ListenerState, t: ListenerState, key: Key)
    requires Once(s) && HandedLater(s) && Settled(s, t, key)
    ensures Once(t) && HandedLater(t)
  {
    forall m: Message
      ensures Placed(t, m) <= if m < t.arrivals then 1 else 0
    {
      assert Placed(s, m) <= if m < s.arrivals then 1 else 0;
      ForgetCounts(s.cache, key, m);
      SamePeersCount(s.peers, t.peers, m);
    }
  }

  lemma CloseSettles(s: ListenerState, p: nat)
    requires Wf(s) && p < |s.peers|
    ensures Settled(s, ClosePeer(s, p), s.peers[p].key)
  {
  }

  lemma ActivateSettles(s: ListenerState, p: nat)
    requires Wf(s) && p < |s.peers|
    ensures Settled(s, ActivateStream(s, p), s.peers[p].key)
  {
    CloseSettles(s, p);
  }

  lemma HandFrameSettles(s: ListenerState, p: nat, frame: Frame)
    requires Wf(s) && p < |s.peers|
    ensures Settled(s, HandFrame(s, p, frame), s.peers[p].key)
  {
  }

  lemma OnFrameSettles(s: ListenerState, p: nat, frame: Frame)
    requires Wf(s) && p < |s.peers|
    ensures Settled(s, OnFrame(s, p, frame), s.peers[p].key)
  {
    var peer := s.peers[p];
    match frame {
      case Undecodable => CloseSettles(s, p);
      case Challenge =>
      case Ready =>
        if !peer.challengeAnswered {
          CloseSettles(s, p);
        } else if !peer.authenticated {
          ActivateSettles(SetPeer(s.(trace := s.trace + [SawReady(p)]), p, peer.(authenticated := true)), p);
        }
      case Data(_) => if peer.authenticated { HandFrameSettles(s, p, frame); } else { CloseSettles(s, p); }
      case Control => if peer.authenticated { HandFrameSettles(s, p, frame); } else { CloseSettles(s, p); }
      case Response => if peer.authenticated { HandFrameSettles(s, p, frame); } else { CloseSettles(s, p); }
    }
  }

  lemma TakeFrameSettles(s: ListenerState, p: nat)
    requires Wf(s) && p < |s.peers|
    ensures Settled(s, TakeFrame(s, p), s.peers[p].key)
  {
    var peer := s.peers[p];
    if !peer.answering && peer.frames != [] {
      OnFrameSettles(SetPeer(s, p, peer.(frames := peer.frames[1..])), p, peer.frames[0]);
    }
  }

  lemma AnswerSettlesSettles(s: ListenerState, p: nat, ok: bool)
    requires Wf(s) && p < |s.peers|
    ensures Settled(s, AnswerSettles(s, p, ok), s.peers[p].key)
  {
    if s.peers[p].answering && !ok {
      CloseSettles(SetPeer(s, p, s.peers[p].(answering := false)), p);
    }
  }

  lemma ByeOnce(s: ListenerState, key: Key)
    requires Wf(s) && Once(s) && HandedLater(s)
    ensures Once(ReceiveBye(s, key)) && HandedLater(ReceiveBye(s, key))
  {
    if !s.closed {
      var t := s.(cache := Forget(s.cache, key));
      SettledKeeps(s, t, key);
      if key in s.attempts {
        CloseOnce(t, s.attempts[key]);
      }
    }
  }

  lemma CloseOnce(s: ListenerState, p: nat)
    requires Wf(s) && p < |s.peers| && Once(s) && HandedLater(s)
    ensures Once(ClosePeer(s, p)) && HandedLater(ClosePeer(s, p))
  {
    CloseSettles(s, p);
    SettledKeeps(s, ClosePeer(s, p), s.peers[p].key);
  }

  lemma TakeFrameOnce(s: ListenerState, p: nat)
    requires Wf(s) && p < |s.peers| && Once(s) && HandedLater(s)
    ensures Once(TakeFrame(s, p)) && HandedLater(TakeFrame(s, p))
  {
    TakeFrameSettles(s, p);
    SettledKeeps(s, TakeFrame(s, p), s.peers[p].key);
  }

  lemma AnswerOnce(s: ListenerState, p: nat, ok: bool)
    requires Wf(s) && p < |s.peers| && Once(s) && HandedLater(s)
    ensures Once(AnswerSettles(s, p, ok)) && HandedLater(AnswerSettles(s, p, ok))
  {
    AnswerSettlesSettles(s, p, ok);
    SettledKeeps(s, AnswerSettles(s, p, ok), s.peers[p].key);
  }

  lemma FinalizeOnce(s: ListenerState, sid: nat)
    requires Wf(s) && sid < |s.all| && Once(s) && HandedLater(s)
    ensures Once(Finalize(s, sid)) && HandedLater(Finalize(s, sid))
  {
    SettledKeeps(s, Finalize(s, sid), Key("", "", ""));
  }

  lemma ArriveOnce(s: ListenerState, p: nat, frame: Frame)
    requires Wf(s) && p < |s.peers| && Once(s) && HandedLater(s)
    ensures Once(Next(s, Arrives(p, frame))) && HandedLater(Next(s, Arrives(p, frame)))
  {
    SettledKeeps(s, Next(s, Arrives(p, frame)), s.peers[p].key);
  }

  // ----- steps that move them -----

  lemma CandidateOnce(s: ListenerState, key: Key, trickle: bool)
    requires Once(s) && Wf(s) && HandedLater(s)
    ensures Once(ReceiveCandidate(s, key, trickle)) && HandedLater(ReceiveCandidate(s, key, trickle))
  {
    var t := ReceiveCandidate(s, key, trickle);
    forall m: Message
      ensures Placed(t, m) <= if m < t.arrivals then 1 else 0
    {
      assert Placed(s, m) <= if m < s.arrivals then 1 else 0;
      QueueCounts(s.cache, key, s.arrivals, m);
      if !s.closed && key in s.attempts {
        var p := s.attempts[key];
        SetPeerCounts(s.peers, p, s.peers[p].(given := s.peers[p].given + [s.arrivals]), m);
      }
    }
  }

  lemma OfferOnce(s: ListenerState, key: Key)
    requires Once(s) && Wf(s) && HandedLater(s)
    ensures Once(AnswerOffer(s, key)) && HandedLater(AnswerOffer(s, key))
  {
    var t := AnswerOffer(s, key);
    forall m: Message
      ensures Placed(t, m) <= if m < t.arrivals then 1 else 0
    {
      assert Placed(s, m) <= if m < s.arrivals then 1 else 0;
      AppendPeerCounts(s.peers, NewPeer(key), m);
    }
  }

  /** The continuation of an offer takes what is cached, once: its peer had nothing to hand before. */
  lemma AppliedOnce(s: ListenerState, p: nat)
    requires Once(s) && Wf(s) && p < |s.peers| && HandedLater(s)
    ensures Once(OfferApplied(s, p)) && HandedLater(OfferApplied(s, p))
  {
    var t := OfferApplied(s, p);
    forall m: Message
      ensures Placed(t, m) <= if m < t.arrivals then 1 else 0
    {
      assert Placed(s, m) <= if m < s.arrivals then 1 else 0;
      ForgetCounts(s.cache, s.peers[p].key, m);
      SetPeerCounts(s.peers, p, t.peers[p], m);
    }
  }

  lemma HandNextOnce(s: ListenerState, p: nat)
    requires Once(s) && Wf(s) && p < |s.peers| && HandedLater(s)
    ensures Once(HandNext(s, p)) && HandedLater(HandNext(s, p))
  {
    var peer := s.peers[p];
    var t := HandNext(s, p);
    if peer.handing != [] {
      assert peer.handing == [peer.handing[0]] + peer.handing[1..];
      forall m: Message
        ensures Placed(t, m) <= if m < t.arrivals then 1 else 0
      {
        assert Placed(s, m) <= if m < s.arrivals then 1 else 0;
        SetPeerCounts(s.peers, p, t.peers[p], m);
      }
    }
  }

  lemma NextOnce(s: ListenerState, event: Event)
    requires Wf(s) && Once(s) && HandedLater(s)
    ensures Once(Next(s, event)) && HandedLater(Next(s, event))
  {
    match event {
      case Offers(key) => OfferOnce(s, key);
      case Candidates(key, trickle) => CandidateOnce(s, key, trickle);
      case Byes(key) => ByeOnce(s, key);
      case Applied(p) => if p < |s.peers| { AppliedOnce(s, p); }
      case Hands(p) => if p < |s.peers| { HandNextOnce(s, p); }
      case Arrives(p, frame) => if p < |s.peers| { ArriveOnce(s, p, frame); }
      case Takes(p) => if p < |s.peers| { TakeFrameOnce(s, p); }
      case Answers(p, ok) => if p < |s.peers| { AnswerOnce(s, p, ok); }
      case Closes(p) => if p < |s.peers| { CloseOnce(s, p); }
      case Expires(key) => SettledKeeps(s, s.(cache := Forget(s.cache, key)), key);
      case Finalizes(sid) => if sid < |s.all| { FinalizeOnce(s, sid); }
      case Stops => SettledKeeps(s, s.(closed := true), Key("", "", ""));
    }
  }

  lemma {:induction false} RunOnce(s: ListenerState, events: seq<Event>)
    requires Wf(s) && Once(s) && HandedLater(s)
    ensures Once(Run(s, events))
    decreases |events|
  {
    if events == [] {
    } else {
      NextOnce(s, events[0]);
      RunOnce(Next(s, events[0]), events[1..]);
    }
  }

  lemma {:induction false} GivenOf(peers: seq<Peer>, p: nat, q: nat, m: Message)
    requires p < |peers| && q < |peers|
    ensures CountOf(peers[p], m) <= CountGiven(peers, m)
    ensures p != q ==> CountOf(peers[p], m) + CountOf(peers[q], m) <= CountGiven(peers, m)
  {
    if p > 0 && q > 0 {
      GivenOf(peers[1..], p - 1, q - 1, m);
    } else if p > 0 {
      GivenOf(peers[1..], p - 1, p - 1, m);
    } else if q > 0 {
      GivenOf(peers[1..], q - 1, q - 1, m);
    }
  }

  /**
   * In every run a candidate is passed to one peer at most, and to that peer at most once;
   * while it is cached, no peer has had it.
   */
  lemma CandidateAtMostOnce(events: seq<Event>, m: Message, p: nat, q: nat)
    requires p < |Run(NEW_LISTENER, events).peers| && q < |Run(NEW_LISTENER, events).peers|
    ensures var s := Run(NEW_LISTENER, events);
            && multiset(s.peers[p].given)[m] <= 1
            && (m in s.peers[p].given && m in s.peers[q].given ==> p == q)
            && (CountCached(s.cache, m) > 0 ==> m !in s.peers[p].given)
  {
    RunOnce(NEW_LISTENER, events);
    var s := Run(NEW_LISTENER, events);
    assert Placed(s, m) <= 1;
    GivenOf(s.peers, p, q, m);
    assert m in s.peers[p].given <==> multiset(s.peers[p].given)[m] > 0;
    assert m in s.peers[q].given <==> multiset(s.peers[q].given)[m] > 0;
  }
}
