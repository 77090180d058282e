/**
 * Every run of the listener: its bounds, one stream and one link for each remote peer, and no
 * frame for a stream except from the authenticated peer that is bound to it.
 */
module ListenerRuns {
  import opened Bytes
  import opened CandidateCache
  import opened Listener
  import opened StreamLinks

  // ----- the trace -----

  predicate Follows(front: seq<Mark>, mark: Mark) {
    && (mark.SawReady? ==> AnsweredChallenge(mark.peer) in front)
    && (mark.HandedFrame? ==> SawReady(mark.peer) in front)
  }

  /** Readiness follows an answered challenge, and a frame is handed on only after readiness. */
  predicate InOrder(trace: seq<Mark>) {
    trace == [] ||
    var front := trace[..|trace| - 1];
    && InOrder(front)
    && Follows(front, trace[|trace| - 1])
  }

  lemma InOrderSnoc(trace: seq<Mark>, mark: Mark)
    requires InOrder(trace) && Follows(trace, mark)
    ensures InOrder(trace + [mark])
  {
    var all := trace + [mark];
    assert all[..|all| - 1] == trace && all[|all| - 1] == mark;
  }

  lemma {:induction false} FrameFollowsAnswer(trace: seq<Mark>, k: nat) returns (i: nat, j: nat)
    requires InOrder(trace) && k < |trace| && trace[k].HandedFrame?
    ensures i < j < k
    ensures trace[i] == AnsweredChallenge(trace[k].peer) && trace[j] == SawReady(trace[k].peer)
  {
    var p := trace[k].peer;
    var front := trace[..|trace| - 1];
    if k < |trace| - 1 {
      assert front[k] == trace[k];
      i, j := FrameFollowsAnswer(front, k);
    } else {
      j :| 0 <= j < |front| && front[j] == SawReady(p);
      i := ReadyFollowsAnswer(front, j);
    }
  }

  lemma {:induction false} ReadyFollowsAnswer(trace: seq<Mark>, j: nat) returns (i: nat)
    requires InOrder(trace) && j < |trace| && trace[j].SawReady?
    ensures i < j && trace[i] == AnsweredChallenge(trace[j].peer)
  {
    var front := trace[..|trace| - 1];
    if j < |trace| - 1 {
      assert front[j] == trace[j];
      i := ReadyFollowsAnswer(front, j);
    } else {
      i :| 0 <= i < |front| && front[i] == AnsweredChallenge(trace[j].peer);
    }
  }

  // ----- the invariant -----

  /** The attempts are exactly the peers that are not closed. */
  ghost predicate AttemptsOpen(attempts: map<Key, nat>, peers: seq<Peer>) {
    && (forall key :: key in attempts ==>
          attempts[key] < |peers| && peers[attempts[key]].key == key && !peers[attempts[key]].closed)
    && (forall p :: 0 <= p < |peers| && !peers[p].closed ==>
          peers[p].key in attempts && attempts[peers[p].key] == p)
  }

  ghost predicate Limited(attempts: map<Key, nat>) {
    && |attempts| <= MAX_LISTENER_ATTEMPTS
    && (forall remote :: |OfRemote(attempts, remote)| <= MAX_LISTENER_ATTEMPTS_PER_PEER)
  }

  /** A cached group waits for an offer, or for the continuation of one. */
  ghost predicate Awaited(key: Key, attempts: map<Key, nat>, peers: seq<Peer>) {
    key in attempts ==> attempts[key] < |peers| && !peers[attempts[key]].handedOver
  }

  ghost predicate Cached(cache: Groups, attempts: map<Key, nat>, peers: seq<Peer>) {
    Bounded(cache) && forall i :: 0 <= i < |cache| ==> Awaited(cache[i].key, attempts, peers)
  }

  ghost predicate Authenticated(trace: seq<Mark>, peers: seq<Peer>) {
    && InOrder(trace)
    && (forall p :: 0 <= p < |peers| && peers[p].challengeAnswered ==> AnsweredChallenge(p) in trace)
    && (forall p :: 0 <= p < |peers| && peers[p].authenticated ==> SawReady(p) in trace)
  }

  /** An entry is an open stream of its remote peer, and knows whom that is bound to. */
  ghost predicate EntryOk(entry: Entry, remote: string, all: seq<Stream>) {
    && entry.stream < |all|
    && var stream := all[entry.stream];
       stream.remote == remote && !stream.closed && Bound(stream.calls) == entry.link
  }

  ghost predicate OneStream(streams: map<string, Entry>, all: seq<Stream>) {
    && (forall remote :: remote in streams ==> EntryOk(streams[remote], remote, all))
    && (forall i :: 0 <= i < |all| && !all[i].closed ==> all[i].remote in streams && streams[all[i].remote].stream == i)
    && (forall i, j :: 0 <= i < j < |all| && all[i].remote == all[j].remote ==> all[i].closed)
  }

  ghost predicate Standing(p: nat, remote: string, peers: seq<Peer>) {
    p < |peers| && peers[p].authenticated && peers[p].key.remote == remote
  }

  ghost predicate CallsOk(stream: Stream, peers: seq<Peer>) {
    && stream.calls != []
    && Disciplined(stream.calls)
    && (forall p :: p in Binders(stream.calls) ==> Standing(p, stream.remote, peers))
  }

  ghost predicate AllCallsOk(all: seq<Stream>, peers: seq<Peer>) {
    forall i :: 0 <= i < |all| ==> CallsOk(all[i], peers)
  }

  ghost predicate Inv(s: ListenerState) {
    && AttemptsOpen(s.attempts, s.peers)
    && Limited(s.attempts)
    && Cached(s.cache, s.attempts, s.peers)
    && Authenticated(s.trace, s.peers)
    && OneStream(s.streams, s.all)
    && AllCallsOk(s.all, s.peers)
  }

  // ----- peers change -----

  /** Peers keep their keys and their authentication. */
  ghost predicate Grows(peers: seq<Peer>, more: seq<Peer>) {
    && |peers| <= |more|
    && (forall p :: 0 <= p < |peers| ==>
          more[p].key == peers[p].key && (peers[p].authenticated ==> more[p].authenticated))
  }

  lemma CallsGrow(all: seq<Stream>, peers: seq<Peer>, more: seq<Peer>)
    requires AllCallsOk(all, peers) && Grows(peers, more)
    ensures AllCallsOk(all, more)
  {
    forall i | 0 <= i < |all|
      ensures CallsOk(all[i], more)
    {
      assert CallsOk(all[i], peers);
      forall p | p in Binders(all[i].calls)
        ensures Standing(p, all[i].remote, more)
      {
        assert Standing(p, all[i].remote, peers);
      }
    }
  }

  lemma CachedPeers(cache: Groups, attempts: map<Key, nat>, peers: seq<Peer>, more: seq<Peer>)
    requires Cached(cache, attempts, peers)
    requires |peers| <= |more| && forall p :: 0 <= p < |peers| ==> more[p].handedOver == peers[p].handedOver
    ensures Cached(cache, attempts, more)
  {
    forall i | 0 <= i < |cache|
      ensures Awaited(cache[i].key, attempts, more)
    {
      assert Awaited(cache[i].key, attempts, peers);
    }
  }

  lemma AttemptsSame(attempts: map<Key, nat>, peers: seq<Peer>, more: seq<Peer>)
    requires AttemptsOpen(attempts, peers) && |more| == |peers|
    requires forall p :: 0 <= p < |peers| ==> more[p].key == peers[p].key && more[p].closed == peers[p].closed
    ensures AttemptsOpen(attempts, more)
  {
  }

  lemma AuthenticatedSame(trace: seq<Mark>, peers: seq<Peer>, more: seq<Peer>)
    requires Authenticated(trace, peers) && |more| == |peers|
    requires forall p :: 0 <= p < |peers| ==>
               more[p].challengeAnswered == peers[p].challengeAnswered && more[p].authenticated == peers[p].authenticated
    ensures Authenticated(trace, more)
  {
  }

  /** Bookkeeping of one peer that touches neither its key nor its standing. */
  predicate SameStanding(a: Peer, b: Peer) {
    && a.key == b.key && a.closed == b.closed && a.authenticated == b.authenticated
    && a.challengeAnswered == b.challengeAnswered && a.handedOver == b.handedOver
  }

  lemma SetPeerKeeps(s: ListenerState, p: nat, peer: Peer)
    requires Inv(s) && p < |s.peers| && SameStanding(s.peers[p], peer)
    ensures Inv(s.(peers := s.peers[p := peer]))
  {
    var more := s.peers[p := peer];
    CallsGrow(s.all, s.peers, more);
    CachedPeers(s.cache, s.attempts, s.peers, more);
    AttemptsSame(s.attempts, s.peers, more);
    AuthenticatedSame(s.trace, s.peers, more);
  }

  lemma MarkKeeps(trace: seq<Mark>, peers: seq<Peer>, mark: Mark)
    requires Authenticated(trace, peers) && Follows(trace, mark)
    ensures Authenticated(trace + [mark], peers)
  {
    InOrderSnoc(trace, mark);
    assert forall m :: m in trace ==> m in trace + [mark];
  }

  lemma AnsweredKeeps(s: ListenerState, p: nat, more: seq<Peer>)
    requires Inv(s) && p < |s.peers|
    requires more == s.peers[p := s.peers[p].(answering := false, challengeAnswered := true)]
    ensures Inv(s.(peers := more, trace := s.trace + [AnsweredChallenge(p)]))
  {
    CallsGrow(s.all, s.peers, more);
    CachedPeers(s.cache, s.attempts, s.peers, more);
    AttemptsSame(s.attempts, s.peers, more);
    AnsweredMark(s.trace, s.peers, p, more);
  }

  lemma AnsweredMark(trace: seq<Mark>, peers: seq<Peer>, p: nat, more: seq<Peer>)
    requires Authenticated(trace, peers) && p < |peers|
    requires more == peers[p := peers[p].(answering := false, challengeAnswered := true)]
    ensures Authenticated(trace + [AnsweredChallenge(p)], more)
  {
    MarkKeeps(trace, peers, AnsweredChallenge(p));
    assert (trace + [AnsweredChallenge(p)])[|trace|] == AnsweredChallenge(p);
  }

  lemma ReadyMark(trace: seq<Mark>, peers: seq<Peer>, p: nat, more: seq<Peer>)
    requires Authenticated(trace, peers) && p < |peers| && peers[p].challengeAnswered
    requires more == peers[p := peers[p].(authenticated := true)]
    ensures Authenticated(trace + [SawReady(p)], more)
  {
    MarkKeeps(trace, peers, SawReady(p));
    assert (trace + [SawReady(p)])[|trace|] == SawReady(p);
  }

  // ----- losing a peer -----

  lemma SubsetCard(a: set<Key>, b: set<Key>)
    requires a <= b
    ensures |a| <= |b|
  {
    assert b == a + (b - a);
    assert |b| == |a| + |b - a|;
  }

  lemma LimitedWithout(attempts: map<Key, nat>, key: Key)
    requires Limited(attempts)
    ensures Limited(attempts - {key})
  {
    SubsetCard((attempts - {key}).Keys, attempts.Keys);
    forall remote
      ensures |OfRemote(attempts - {key}, remote)| <= MAX_LISTENER_ATTEMPTS_PER_PEER
    {
      SubsetCard(OfRemote(attempts - {key}, remote), OfRemote(attempts, remote));
    }
  }

  lemma AttemptsWithout(attempts: map<Key, nat>, peers: seq<Peer>, p: nat, more: seq<Peer>)
    requires AttemptsOpen(attempts, peers) && p < |peers| && !peers[p].closed
    requires more == peers[p := peers[p].(closed := true)]
    ensures AttemptsOpen(attempts - {peers[p].key}, more)
  {
  }

  /** Without an attempt, or without a group, what is cached is still awaited. */
  lemma CachedWithout(cache: Groups, attempts: map<Key, nat>, peers: seq<Peer>, key: Key)
    requires Cached(cache, attempts, peers)
    ensures Cached(Forget(cache, key), attempts, peers)
    ensures Cached(Forget(cache, key), attempts - {key}, peers)
  {
    ForgetKeeps(cache, key);
    var rest := Forget(cache, key);
    forall i | 0 <= i < |rest|
      ensures Awaited(rest[i].key, attempts, peers) && Awaited(rest[i].key, attempts - {key}, peers)
    {
      assert rest[i] in cache;
      var k :| 0 <= k < |cache| && cache[k] == rest[i];
      assert Awaited(cache[k].key, attempts, peers);
    }
  }

  lemma CleanedKeeps(s: ListenerState, p: nat, more: seq<Peer>, t: ListenerState)
    requires Inv(s) && p < |s.peers| && !s.peers[p].closed
    requires more == s.peers[p := s.peers[p].(closed := true)]
    requires t == s.(peers := more, attempts := s.attempts - {s.peers[p].key}, cache := Forget(s.cache, s.peers[p].key))
    ensures Inv(t)
  {
    var key := s.peers[p].key;
    AttemptsWithout(s.attempts, s.peers, p, more);
    LimitedWithout(s.attempts, key);
    CachedPeers(s.cache, s.attempts, s.peers, more);
    CachedWithout(s.cache, s.attempts, more, key);
    CallsGrow(s.all, s.peers, more);
    AuthenticatedSame(s.trace, s.peers, more);
  }

  lemma CleanupParts(s: ListenerState, p: nat, more: seq<Peer>, t: ListenerState)
    requires AttemptsOpen(s.attempts, s.peers) && Wf(s) && p < |s.peers| && !s.peers[p].closed
    requires more == s.peers[p := s.peers[p].(closed := true)]
    requires t == Cleanup(SetPeer(s, p, s.peers[p].(closed := true)), p)
    ensures t == s.(peers := more, attempts := s.attempts - {s.peers[p].key}, cache := Forget(s.cache, s.peers[p].key))
  {
  }

  lemma CallKeeps(s: ListenerState, remote: string, call: Call, link: Option<nat>)
    requires OneStream(s.streams, s.all) && AllCallsOk(s.all, s.peers)
    requires remote in s.streams && s.streams[remote].stream < |s.all|
    requires Allowed(s.all[s.streams[remote].stream].calls, call)
    requires call.Rebound? ==> Standing(call.peer, remote, s.peers)
    requires !call.Opened? && !call.Left?
    requires link == if call.Delivered? then s.streams[remote].link else if call.Lost? then None else Some(call.peer)
    ensures var sid := s.streams[remote].stream;
            var all := s.all[sid := s.all[sid].(calls := s.all[sid].calls + [call])];
            OneStream(s.streams[remote := Entry(sid, link)], all) && AllCallsOk(all, s.peers)
  {
    var sid := s.streams[remote].stream;
    var stream := s.all[sid];
    assert EntryOk(s.streams[remote], remote, s.all);
    assert CallsOk(stream, s.peers);
    Snoc(stream.calls, call);
    var after := stream.(calls := stream.calls + [call]);
    assert CallsOk(after, s.peers);
    SetStreamKeeps(s.streams, s.all, remote, after, link);
  }

  lemma SetStreamKeeps(streams: map<string, Entry>, all: seq<Stream>, remote: string, after: Stream, link: Option<nat>)
    requires OneStream(streams, all) && remote in streams && streams[remote].stream < |all|
    requires after.remote == remote && !after.closed && Bound(after.calls) == link
    ensures OneStream(streams[remote := Entry(streams[remote].stream, link)], all[streams[remote].stream := after])
  {
    var sid := streams[remote].stream;
    var newer, more := streams[remote := Entry(sid, link)], all[sid := after];
    assert EntryOk(streams[remote], remote, all);
    forall r | r in newer
      ensures EntryOk(newer[r], r, more)
    {
      assert r in streams && EntryOk(streams[r], r, all);
    }
  }

  lemma UnlinkKeeps(s: ListenerState, p: nat)
    requires Inv(s) && Wf(s) && p < |s.peers|
    ensures Inv(Unlink(s, p))
  {
    var remote := s.peers[p].key.remote;
    if remote in s.streams && s.streams[remote].link == Some(p) {
      assert EntryOk(s.streams[remote], remote, s.all);
      CallKeeps(s, remote, Lost(p), None);
    }
  }

  lemma ClosePeerKeeps(s: ListenerState, p: nat)
    requires Inv(s) && Wf(s) && p < |s.peers|
    ensures Inv(ClosePeer(s, p))
  {
    if !s.peers[p].closed {
      var more := s.peers[p := s.peers[p].(closed := true)];
      var t := Cleanup(SetPeer(s, p, s.peers[p].(closed := true)), p);
      CleanupParts(s, p, more, t);
      CleanedKeeps(s, p, more, t);
      UnlinkKeeps(t, p);
    }
  }

  // ----- binding a peer -----

  /** A peer that no stream was ever bound to. */
  ghost predicate Unbound(all: seq<Stream>, p: nat) {
    forall i :: 0 <= i < |all| ==> p !in Binders(all[i].calls)
  }

  lemma OpenKeepsStreams(streams: map<string, Entry>, all: seq<Stream>, remote: string, p: nat)
    requires OneStream(streams, all) && remote !in streams
    ensures OneStream(streams[remote := Entry(|all|, Some(p))], all + [Stream(remote, false, [Opened(p)])])
  {
    var newer, more := streams[remote := Entry(|all|, Some(p))], all + [Stream(remote, false, [Opened(p)])];
    Snoc([], Opened(p));
    assert [] + [Opened(p)] == [Opened(p)];
    forall r | r in newer
      ensures EntryOk(newer[r], r, more)
    {
      if r != remote {
        assert EntryOk(streams[r], r, all);
      }
    }
  }

  lemma OpenStreamKeeps(s: ListenerState, p: nat)
    requires Inv(s) && Wf(s) && p < |s.peers| && s.peers[p].authenticated
    requires s.peers[p].key.remote !in s.streams
    ensures Inv(OpenStream(s, p))
  {
    var remote := s.peers[p].key.remote;
    OpenKeepsStreams(s.streams, s.all, remote, p);
    Snoc([], Opened(p));
    assert [] + [Opened(p)] == [Opened(p)];
    assert Standing(p, remote, s.peers);
    assert CallsOk(Stream(remote, false, [Opened(p)]), s.peers);
  }

  lemma ActivateKeeps(s: ListenerState, p: nat)
    requires Inv(s) && Wf(s) && p < |s.peers| && s.peers[p].authenticated && Unbound(s.all, p)
    ensures Inv(ActivateStream(s, p))
  {
    var remote := s.peers[p].key.remote;
    if remote !in s.streams {
      OpenStreamKeeps(s, p);
    } else {
      var entry := s.streams[remote];
      assert EntryOk(entry, remote, s.all);
      if entry.link.Some? {
        BoundIsBinder(s.all[entry.stream].calls);
        ClosePeerKeeps(s, p);
      } else {
        ReboundKeeps(s, p, ActivateStream(s, p).all);
      }
    }
  }

  lemma ReboundKeeps(s: ListenerState, p: nat, all: seq<Stream>)
    requires Inv(s) && p < |s.peers| && s.peers[p].authenticated && Unbound(s.all, p)
    requires s.peers[p].key.remote in s.streams && s.streams[s.peers[p].key.remote].link.None?
    requires var sid := s.streams[s.peers[p].key.remote].stream;
             sid < |s.all| && all == s.all[sid := s.all[sid].(calls := s.all[sid].calls + [Rebound(p)])]
    ensures var remote := s.peers[p].key.remote;
            Inv(s.(all := all, streams := s.streams[remote := Entry(s.streams[remote].stream, Some(p))]))
  {
    RebindCall(s, p);
  }

  lemma RebindCall(s: ListenerState, p: nat)
    requires OneStream(s.streams, s.all) && AllCallsOk(s.all, s.peers)
    requires p < |s.peers| && s.peers[p].authenticated && Unbound(s.all, p)
    requires s.peers[p].key.remote in s.streams && s.streams[s.peers[p].key.remote].link.None?
    requires s.streams[s.peers[p].key.remote].stream < |s.all|
    ensures var remote := s.peers[p].key.remote;
            var sid := s.streams[remote].stream;
            var all := s.all[sid := s.all[sid].(calls := s.all[sid].calls + [Rebound(p)])];
            OneStream(s.streams[remote := Entry(sid, Some(p))], all) && AllCallsOk(all, s.peers)
  {
    var remote := s.peers[p].key.remote;
    assert EntryOk(s.streams[remote], remote, s.all);
    assert CallsOk(s.all[s.streams[remote].stream], s.peers);
    assert Standing(p, remote, s.peers);
    CallKeeps(s, remote, Rebound(p), Some(p));
  }

  lemma UnauthenticatedIsUnbound(all: seq<Stream>, peers: seq<Peer>, p: nat)
    requires AllCallsOk(all, peers) && p < |peers| && !peers[p].authenticated
    ensures Unbound(all, p)
  {
    forall i | 0 <= i < |all|
      ensures p !in Binders(all[i].calls)
    {
      assert CallsOk(all[i], peers);
      assert !Standing(p, all[i].remote, peers);
    }
  }

  lemma ReadyKeeps(s: ListenerState, p: nat, more: seq<Peer>)
    requires Inv(s) && p < |s.peers| && s.peers[p].challengeAnswered && !s.peers[p].authenticated
    requires more == s.peers[p := s.peers[p].(authenticated := true)]
    ensures Inv(s.(peers := more, trace := s.trace + [SawReady(p)])) && Unbound(s.all, p)
  {
    UnauthenticatedIsUnbound(s.all, s.peers, p);
    CallsGrow(s.all, s.peers, more);
    CachedPeers(s.cache, s.attempts, s.peers, more);
    ReadyMark(s.trace, s.peers, p, more);
    AttemptsSame(s.attempts, s.peers, more);
  }

  // ----- frames -----

  lemma DeliverCall(s: ListenerState, p: nat, frame: Frame)
    requires OneStream(s.streams, s.all) && AllCallsOk(s.all, s.peers) && p < |s.peers|
    requires s.peers[p].key.remote in s.streams && s.streams[s.peers[p].key.remote].link == Some(p)
    requires s.streams[s.peers[p].key.remote].stream < |s.all|
    ensures var sid := s.streams[s.peers[p].key.remote].stream;
            var all := s.all[sid := s.all[sid].(calls := s.all[sid].calls + [Delivered(p, frame)])];
            OneStream(s.streams, all) && AllCallsOk(all, s.peers)
  {
    var remote := s.peers[p].key.remote;
    assert EntryOk(s.streams[remote], remote, s.all);
    CallKeeps(s, remote, Delivered(p, frame), Some(p));
    assert s.streams[remote := Entry(s.streams[remote].stream, Some(p))] == s.streams;
  }

  lemma DeliveredKeeps(s: ListenerState, p: nat, frame: Frame, all: seq<Stream>)
    requires Inv(s) && p < |s.peers| && s.peers[p].authenticated
    requires s.peers[p].key.remote in s.streams && s.streams[s.peers[p].key.remote].link == Some(p)
    requires var sid := s.streams[s.peers[p].key.remote].stream;
             sid < |s.all| && all == s.all[sid := s.all[sid].(calls := s.all[sid].calls + [Delivered(p, frame)])]
    ensures Inv(s.(all := all, trace := s.trace + [HandedFrame(p)]))
  {
    DeliverCall(s, p, frame);
    MarkKeeps(s.trace, s.peers, HandedFrame(p));
  }

  lemma DeliverKeeps(s: ListenerState, p: nat, frame: Frame)
    requires Inv(s) && Wf(s) && p < |s.peers| && s.peers[p].authenticated
    requires frame.Data? || frame.Control?
    ensures Inv(HandFrame(s, p, frame))
  {
    var remote := s.peers[p].key.remote;
    if remote in s.streams && s.streams[remote].link == Some(p) {
      DeliveredKeeps(s, p, frame, HandFrame(s, p, frame).all);
    }
  }

  lemma OnFrameKeeps(s: ListenerState, p: nat, frame: Frame)
    requires Inv(s) && Wf(s) && p < |s.peers|
    ensures Inv(OnFrame(s, p, frame))
  {
    var peer := s.peers[p];
    match frame {
      case Undecodable => ClosePeerKeeps(s, p);
      case Challenge => SetPeerKeeps(s, p, peer.(answering := true));
      case Ready =>
        if !peer.challengeAnswered {
          ClosePeerKeeps(s, p);
        } else if !peer.authenticated {
          var more := s.peers[p := peer.(authenticated := true)];
          ReadyKeeps(s, p, more);
          ActivateKeeps(s.(peers := more, trace := s.trace + [SawReady(p)]), p);
        }
      case Data(_) => if peer.authenticated { DeliverKeeps(s, p, frame); } else { ClosePeerKeeps(s, p); }
      case Control => if peer.authenticated { DeliverKeeps(s, p, frame); } else { ClosePeerKeeps(s, p); }
      case Response => if !peer.authenticated { ClosePeerKeeps(s, p); }
    }
  }

  lemma TakeFrameKeeps(s: ListenerState, p: nat)
    requires Inv(s) && Wf(s) && p < |s.peers|
    ensures Inv(TakeFrame(s, p))
  {
    var peer := s.peers[p];
    if !peer.answering && peer.frames != [] {
      SetPeerKeeps(s, p, peer.(frames := peer.frames[1..]));
      OnFrameKeeps(SetPeer(s, p, peer.(frames := peer.frames[1..])), p, peer.frames[0]);
    }
  }

  lemma AnswerSettlesKeeps(s: ListenerState, p: nat, ok: bool)
    requires Inv(s) && Wf(s) && p < |s.peers|
    ensures Inv(AnswerSettles(s, p, ok))
  {
    var peer := s.peers[p];
    if peer.answering {
      if ok {
        AnsweredKeeps(s, p, AnswerSettles(s, p, true).peers);
      } else {
        SetPeerKeeps(s, p, peer.(answering := false));
        ClosePeerKeeps(SetPeer(s, p, peer.(answering := false)), p);
      }
    }
  }

  // ----- signaling -----

  lemma OfRemoteWith(attempts: map<Key, nat>, key: Key, p: nat, remote: string)
    requires key !in attempts
    ensures |OfRemote(attempts[key := p], remote)| ==
            |OfRemote(attempts, remote)| + (if key.remote == remote then 1 else 0)
  {
    var a, b := OfRemote(attempts, remote), OfRemote(attempts[key := p], remote);
    if key.remote == remote {
      assert b == a + {key};
    } else {
      assert b == a;
    }
  }

  lemma LimitedWith(attempts: map<Key, nat>, key: Key, p: nat)
    requires Limited(attempts) && key !in attempts
    requires |attempts| < MAX_LISTENER_ATTEMPTS
    requires |OfRemote(attempts, key.remote)| < MAX_LISTENER_ATTEMPTS_PER_PEER
    ensures Limited(attempts[key := p])
  {
    var more := attempts[key := p];
    assert more.Keys == attempts.Keys + {key};
    assert |more| == |more.Keys| == |attempts| + 1;
    forall remote
      ensures |OfRemote(more, remote)| <= MAX_LISTENER_ATTEMPTS_PER_PEER
    {
      OfRemoteWith(attempts, key, p, remote);
    }
  }

  lemma CachedWith(cache: Groups, attempts: map<Key, nat>, peers: seq<Peer>, key: Key)
    requires Cached(cache, attempts, peers)
    ensures Cached(cache, attempts[key := |peers|], peers + [NewPeer(key)])
  {
    forall i | 0 <= i < |cache|
      ensures Awaited(cache[i].key, attempts[key := |peers|], peers + [NewPeer(key)])
    {
      assert Awaited(cache[i].key, attempts, peers);
    }
  }

  lemma AnswerOfferKeeps(s: ListenerState, key: Key)
    requires Inv(s) && Wf(s)
    ensures Inv(AnswerOffer(s, key))
  {
    if s.closed || key in s.attempts {
    } else if |s.attempts| >= MAX_LISTENER_ATTEMPTS {
    } else if |OfRemote(s.attempts, key.remote)| >= MAX_LISTENER_ATTEMPTS_PER_PEER {
    } else {
      var more := s.peers + [NewPeer(key)];
      LimitedWith(s.attempts, key, |s.peers|);
      CachedWith(s.cache, s.attempts, s.peers, key);
      CallsGrow(s.all, s.peers, more);
      assert AttemptsOpen(s.attempts[key := |s.peers|], more);
      assert Authenticated(s.trace, more);
    }
  }

  lemma QueuedKeeps(cache: Groups, attempts: map<Key, nat>, peers: seq<Peer>, key: Key, message: Message)
    requires Cached(cache, attempts, peers) && key !in attempts
    ensures Cached(Queue(cache, key, message), attempts, peers)
  {
    QueueKeeps(cache, key, message);
    var more := Queue(cache, key, message);
    forall i | 0 <= i < |more|
      ensures Awaited(more[i].key, attempts, peers)
    {
      assert more[i] in more;
      if more[i].key != key {
        var k :| 0 <= k < |cache| && cache[k].key == more[i].key;
        assert Awaited(cache[k].key, attempts, peers);
      }
    }
  }

  lemma ReceiveCandidateKeeps(s: ListenerState, key: Key, trickle: bool)
    requires Inv(s) && Wf(s)
    ensures Inv(ReceiveCandidate(s, key, trickle))
  {
    if s.closed {
    } else if key in s.attempts {
      var p := s.attempts[key];
      SetPeerKeeps(s.(arrivals := s.arrivals + 1), p, s.peers[p].(given := s.peers[p].given + [s.arrivals]));
    } else {
      QueuedKeeps(s.cache, s.attempts, s.peers, key, s.arrivals);
    }
  }

  lemma ReceiveByeKeeps(s: ListenerState, key: Key)
    requires Inv(s) && Wf(s)
    ensures Inv(ReceiveBye(s, key))
  {
    CachedWithout(s.cache, s.attempts, s.peers, key);
    if !s.closed && key in s.attempts {
      ClosePeerKeeps(s.(cache := Forget(s.cache, key)), s.attempts[key]);
    }
  }

  lemma HandedOverCache(s: ListenerState, p: nat, more: seq<Peer>)
    requires Inv(s) && p < |s.peers|
    requires |more| == |s.peers| && forall k :: 0 <= k < |more| && k != p ==> more[k] == s.peers[k]
    ensures Cached(Forget(s.cache, s.peers[p].key), s.attempts, more)
  {
    var key := s.peers[p].key;
    CachedWithout(s.cache, s.attempts, s.peers, key);
    ForgetKeeps(s.cache, key);
    var rest := Forget(s.cache, key);
    forall i | 0 <= i < |rest|
      ensures Awaited(rest[i].key, s.attempts, more)
    {
      assert Awaited(rest[i].key, s.attempts, s.peers);
      assert rest[i].key != key;
    }
  }

  lemma OfferAppliedKeeps(s: ListenerState, p: nat)
    requires Inv(s) && Wf(s) && p < |s.peers|
    ensures Inv(OfferApplied(s, p))
  {
    if !s.peers[p].handedOver {
      var more := OfferApplied(s, p).peers;
      HandedOverCache(s, p, more);
      CallsGrow(s.all, s.peers, more);
      AttemptsSame(s.attempts, s.peers, more);
      AuthenticatedSame(s.trace, s.peers, more);
    }
  }

  lemma FinalizedStreams(streams: map<string, Entry>, all: seq<Stream>, sid: nat)
    requires OneStream(streams, all) && sid < |all| && !all[sid].closed
    ensures OneStream(streams - {all[sid].remote}, all[sid := all[sid].(closed := true)])
  {
    var fewer, more := streams - {all[sid].remote}, all[sid := all[sid].(closed := true)];
    forall r | r in fewer
      ensures EntryOk(fewer[r], r, more)
    {
      assert EntryOk(streams[r], r, all);
    }
  }

  lemma FinalizeKeeps(s: ListenerState, sid: nat)
    requires Inv(s) && Wf(s) && sid < |s.all|
    ensures Inv(Finalize(s, sid))
  {
    if !s.all[sid].closed {
      FinalizedStreams(s.streams, s.all, sid);
      assert CallsOk(s.all[sid], s.peers);
      assert CallsOk(s.all[sid].(closed := true), s.peers);
    }
  }

  lemma HandNextKeeps(s: ListenerState, p: nat)
    requires Inv(s) && Wf(s) && p < |s.peers|
    ensures Inv(HandNext(s, p))
  {
    if s.peers[p].handing != [] {
      var peer := s.peers[p];
      SetPeerKeeps(s, p, peer.(handing := peer.handing[1..], given := peer.given + [peer.handing[0]]));
    }
  }

  /** Every step keeps the invariant of the listener. */
  lemma NextKeeps(s: ListenerState, event: Event)
    requires Inv(s) && Wf(s)
    ensures Inv(Next(s, event))
  {
    match event {
      case Offers(key) => AnswerOfferKeeps(s, key);
      case Candidates(key, trickle) => ReceiveCandidateKeeps(s, key, trickle);
      case Byes(key) => ReceiveByeKeeps(s, key);
      case Applied(p) => if p < |s.peers| { OfferAppliedKeeps(s, p); }
      case Hands(p) => if p < |s.peers| { HandNextKeeps(s, p); }
      case Arrives(p, frame) =>
        if p < |s.peers| { SetPeerKeeps(s, p, s.peers[p].(frames := s.peers[p].frames + [frame])); }
      case Takes(p) => if p < |s.peers| { TakeFrameKeeps(s, p); }
      case Answers(p, ok) => if p < |s.peers| { AnswerSettlesKeeps(s, p, ok); }
      case Closes(p) => if p < |s.peers| { ClosePeerKeeps(s, p); }
      case Expires(key) => CachedWithout(s.cache, s.attempts, s.peers, key);
      case Finalizes(sid) => if sid < |s.all| { FinalizeKeeps(s, sid); }
      case Stops =>
    }
  }

  lemma {:induction false} RunKeeps(s: ListenerState, events: seq<Event>)
    requires Inv(s) && Wf(s)
    ensures Inv(Run(s, events))
    decreases |events|
  {
    if events == [] {
    } else {
      NextKeeps(s, events[0]);
      RunKeeps(Next(s, events[0]), events[1..]);
    }
  }

  // ----- what holds in every run -----

  lemma Reaches(events: seq<Event>)
    ensures Inv(Run(NEW_LISTENER, events))
  {
    forall remote
      ensures |OfRemote(map[], remote)| <= MAX_LISTENER_ATTEMPTS_PER_PEER
    {
      assert OfRemote(map[], remote) == {};
    }
    RunKeeps(NEW_LISTENER, events);
  }

  /** At most 64 attempts, 4 of one remote peer, and 128 cached groups of 32 candidates. */
  lemma ListenerIsBounded(events: seq<Event>)
    ensures var s := Run(NEW_LISTENER, events);
            && |s.attempts| <= 64
            && (forall remote :: |OfRemote(s.attempts, remote)| <= 4)
            && |s.cache| <= 128
            && (forall i :: 0 <= i < |s.cache| ==> |s.cache[i].messages| <= 32)
  {
    Reaches(events);
  }

  /**
   * A remote peer has at most one open stream, and that is its entry: a later stream of the
   * same remote peer means that every earlier one is closed.
   */
  lemma OneStreamPerRemote(events: seq<Event>, i: nat, j: nat)
    requires var s := Run(NEW_LISTENER, events);
             i < |s.all| && j < |s.all| && s.all[i].remote == s.all[j].remote && !s.all[i].closed
    ensures var s := Run(NEW_LISTENER, events);
            && j <= i
            && (j < i ==> s.all[j].closed)
            && s.all[i].remote in s.streams && s.streams[s.all[i].remote].stream == i
  {
    Reaches(events);
  }

  /**
   * Whatever a stream is handed comes from the one peer that it is bound to at that moment,
   * and that peer is authenticated and belongs to the stream's remote peer.
   */
  lemma FramesComeFromTheLink(events: seq<Event>, i: nat, k: nat)
    requires var s := Run(NEW_LISTENER, events);
             i < |s.all| && k < |s.all[i].calls| && s.all[i].calls[k].Delivered?
    ensures var s := Run(NEW_LISTENER, events);
            var p := s.all[i].calls[k].peer;
            && Disciplined(s.all[i].calls)
            && Bound(s.all[i].calls[..k]) == Some(p)
            && p < |s.peers| && s.peers[p].authenticated && s.peers[p].key.remote == s.all[i].remote
            && SawReady(p) in s.trace
  {
    Reaches(events);
    var s := Run(NEW_LISTENER, events);
    var calls := s.all[i].calls;
    assert CallsOk(s.all[i], s.peers);
    DeliveredByBound(calls, k);
    assert Standing(calls[k].peer, s.all[i].remote, s.peers);
  }

  /** Before a frame of a peer is handed on, its challenge was answered and then its AUTH_READY seen. */
  lemma AuthenticationComesFirst(events: seq<Event>, k: nat) returns (i: nat, j: nat)
    requires k < |Run(NEW_LISTENER, events).trace| && Run(NEW_LISTENER, events).trace[k].HandedFrame?
    ensures var trace := Run(NEW_LISTENER, events).trace;
            i < j < k && trace[i] == AnsweredChallenge(trace[k].peer) && trace[j] == SawReady(trace[k].peer)
  {
    Reaches(events);
    i, j := FrameFollowsAnswer(Run(NEW_LISTENER, events).trace, k);
  }

  /** Nothing stays cached for an attempt whose offer has been applied. */
  lemma NoCandidateIsStranded(events: seq<Event>, key: Key)
    requires key in Run(NEW_LISTENER, events).attempts
    ensures var s := Run(NEW_LISTENER, events);
            var p := s.attempts[key];
            && p < |s.peers| && s.peers[p].key == key && !s.peers[p].closed
            && (s.peers[p].handedOver ==> Messages(s.cache, key) == [])
  {
    Reaches(events);
    var s := Run(NEW_LISTENER, events);
    if s.peers[s.attempts[key]].handedOver {
      forall i | 0 <= i < |s.cache|
        ensures s.cache[i].key != key
      {
        assert Awaited(s.cache[i].key, s.attempts, s.peers);
      }
      NoGroupNoMessages(s.cache, key);
    }
  }
}
