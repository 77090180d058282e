/**
 * The whole way of a candidate at the listener: from its arrival, perhaps through the cache,
 * to the attempt it is passed to, and through that attempt's own queue to the connection. The
 * listener and the peers it created run together: what the listener passes on is what `signal`
 * is called with, and a peer that closes, for whatever reason, is closed on both sides.
 */
module CandidatePath {
  import opened Bytes
  import StreamLinks
  import CandidateCache
  import L = Listener
  import ListenerCandidates
  import N = NativePeer

  /** One connection for each peer of the listener. */
  datatype Path = Path(listener: L.ListenerState, connections: seq<N.PeerState>)

  const NEW_PATH: Path := Path(L.NEW_LISTENER, [])

  datatype Event =
    | Hears(event: L.Event)
    | Inside(peer: nat, step: N.Event)  // anything but a call of signal with a candidate

  predicate Wf(s: Path) {
    L.Wf(s.listener) && |s.connections| == |s.listener.peers|
  }

  /** A message that carries no candidate is passed on like any other. */
  function Signal(message: nat, empty: set<nat>): N.Event {
    N.Candidate(if message in empty then None else Some(message))
  }

  function Feed(c: N.PeerState, messages: seq<nat>, empty: set<nat>): N.PeerState
    decreases |messages|
  {
    if messages == [] then c else Feed(N.Next(c, Signal(messages[0], empty)), messages[1..], empty)
  }

  /** What the listener has passed to a peer since it had passed the first n messages. */
  function Since(peer: L.Peer, n: nat): seq<nat> {
    if n <= |peer.given| then peer.given[n..] else []
  }

  function Shut(c: N.PeerState, closed: bool): N.PeerState {
    if closed then c.Close() else c
  }

  /** The connection of a peer after a step of the listener. */
  function Follow(s: Path, t: L.ListenerState, p: nat, empty: set<nat>): N.PeerState
    requires Wf(s) && p < |t.peers|
  {
    var c := if p < |s.connections| then s.connections[p] else N.NEW_PEER;
    var n := if p < |s.connections| then |s.listener.peers[p].given| else 0;
    Shut(Feed(c, Since(t.peers[p], n), empty), t.peers[p].closed)
  }

  function Hear(s: Path, event: L.Event, empty: set<nat>): (t: Path)
    requires Wf(s)
    ensures Wf(t)
  {
    var l := L.Next(s.listener, event);
    Path(l, seq(|l.peers|, p requires 0 <= p < |l.peers| => Follow(s, l, p, empty)))
  }

  /** A peer that closes itself tells the listener. */
  function Work(s: Path, p: nat, event: N.Event): (t: Path)
    requires Wf(s) && p < |s.connections|
    ensures L.Wf(t.listener)
  {
    var c := N.Next(s.connections[p], event);
    Path(if c.closed then L.ClosePeer(s.listener, p) else s.listener, s.connections[p := c])
  }

  lemma CloseKeepsPeers(s: L.ListenerState, p: nat)
    requires L.Wf(s) && p < |s.peers|
    ensures var t := L.ClosePeer(s, p);
            t.peers == s.peers[p := s.peers[p].(closed := true)]
  {
  }

  function Next(s: Path, event: Event, empty: set<nat>): (t: Path)
    requires Wf(s)
    ensures Wf(t)
  {
    match event
    case Hears(e) => Hear(s, e, empty)
    case Inside(p, e) =>
      if p < |s.connections| && !e.Candidate? then
        CloseKeepsPeers(s.listener, p);
        Work(s, p, e)
      else s
  }

  function Run(s: Path, events: seq<Event>, empty: set<nat>): (t: Path)
    requires Wf(s)
    ensures Wf(t)
    decreases |events|
  {
    if events == [] then s else Run(Next(s, events[0], empty), events[1..], empty)
  }

  // ----- what a step of the listener passes on -----

  /** Nothing that was passed on is taken back, closed peers stay closed, and a new peer has had nothing. */
  ghost predicate Grows(s: L.ListenerState, t: L.ListenerState) {
    && |s.peers| <= |t.peers|
    && (forall p :: 0 <= p < |s.peers| ==> s.peers[p].given <= t.peers[p].given && (s.peers[p].closed ==> t.peers[p].closed))
    && (forall p :: |s.peers| <= p < |t.peers| ==> t.peers[p].given == [] && !t.peers[p].closed)
  }

  /** At most the given peer changes, and it has had just what it had before. */
  ghost predicate Passes(s: L.ListenerState, t: L.ListenerState, p: nat) {
    && p < |s.peers| == |t.peers|
    && t.peers == s.peers[p := t.peers[p]]
    && t.peers[p].given == s.peers[p].given
    && (s.peers[p].closed ==> t.peers[p].closed)
  }

  lemma PassesGrows(s: L.ListenerState, t: L.ListenerState, p: nat)
    requires Passes(s, t, p)
    ensures Grows(s, t)
  {
  }

  lemma PassesTrans(s: L.ListenerState, t: L.ListenerState, u: L.ListenerState, p: nat)
    requires Passes(s, t, p) && Passes(t, u, p)
    ensures Passes(s, u, p)
  {
  }

  lemma ClosePasses(s: L.ListenerState, p: nat)
    requires L.Wf(s) && p < |s.peers|
    ensures Passes(s, L.ClosePeer(s, p), p)
  {
    CloseKeepsPeers(s, p);
  }

  lemma ActivatePasses(s: L.ListenerState, p: nat)
    requires L.Wf(s) && p < |s.peers|
    ensures Passes(s, L.ActivateStream(s, p), p)
  {
    ClosePasses(s, p);
  }

  lemma HandPasses(s: L.ListenerState, p: nat, frame: StreamLinks.Frame)
    requires L.Wf(s) && p < |s.peers|
    ensures Passes(s, L.HandFrame(s, p, frame), p)
  {
  }

  lemma ReadyPasses(s: L.ListenerState, p: nat)
    requires L.Wf(s) && p < |s.peers|
    ensures Passes(s, L.OnFrame(s, p, StreamLinks.Ready), p)
  {
    var peer := s.peers[p];
    ClosePasses(s, p);
    if peer.challengeAnswered && !peer.authenticated {
      var t := L.SetPeer(s.(trace := s.trace + [L.SawReady(p)]), p, peer.(authenticated := true));
      ActivatePasses(t, p);
      PassesTrans(s, t, L.ActivateStream(t, p), p);
    }
  }

  lemma FramePasses(s: L.ListenerState, p: nat, frame: StreamLinks.Frame)
    requires L.Wf(s) && p < |s.peers|
    ensures Passes(s, L.OnFrame(s, p, frame), p)
  {
    ClosePasses(s, p);
    match frame
    case Undecodable =>
    case Challenge =>
    case Ready => ReadyPasses(s, p);
    case _ => HandPasses(s, p, frame);
  }

  lemma TakePasses(s: L.ListenerState, p: nat)
    requires L.Wf(s) && p < |s.peers|
    ensures Passes(s, L.TakeFrame(s, p), p)
  {
    var peer := s.peers[p];
    if !peer.answering && peer.frames != [] {
      var t := L.SetPeer(s, p, peer.(frames := peer.frames[1..]));
      FramePasses(t, p, peer.frames[0]);
      PassesTrans(s, t, L.OnFrame(t, p, peer.frames[0]), p);
    }
  }

  lemma AnswerPasses(s: L.ListenerState, p: nat, ok: bool)
    requires L.Wf(s) && p < |s.peers|
    ensures Passes(s, L.AnswerSettles(s, p, ok), p)
  {
    var peer := s.peers[p];
    if peer.answering && !ok {
      var t := L.SetPeer(s, p, peer.(answering := false));
      ClosePasses(t, p);
      PassesTrans(s, t, L.ClosePeer(t, p), p);
    }
  }

  /** A candidate or an offer that arrives. */
  lemma SignalGrows(s: L.ListenerState, key: CandidateCache.Key, trickle: bool)
    requires L.Wf(s)
    ensures Grows(s, L.AnswerOffer(s, key)) && Grows(s, L.ReceiveCandidate(s, key, trickle))
  {
  }

  lemma ByeGrows(s: L.ListenerState, key: CandidateCache.Key)
    requires L.Wf(s)
    ensures Grows(s, L.ReceiveBye(s, key))
  {
    if !s.closed && key in s.attempts {
      var t := s.(cache := CandidateCache.Forget(s.cache, key));
      ClosePasses(t, s.attempts[key]);
      PassesGrows(t, L.ClosePeer(t, s.attempts[key]), s.attempts[key]);
    }
  }

  lemma AppliedGrows(s: L.ListenerState, p: nat)
    requires L.Wf(s) && p < |s.peers|
    ensures Grows(s, L.OfferApplied(s, p))
  {
  }

  lemma HandsGrow(s: L.ListenerState, p: nat)
    requires L.Wf(s) && p < |s.peers|
    ensures Grows(s, L.HandNext(s, p))
  {
  }

  lemma ArrivalGrows(s: L.ListenerState, p: nat, frame: StreamLinks.Frame)
    requires L.Wf(s) && p < |s.peers|
    ensures Grows(s, L.Next(s, L.Arrives(p, frame)))
  {
  }

  lemma NextGrows(s: L.ListenerState, event: L.Event)
    requires L.Wf(s)
    ensures Grows(s, L.Next(s, event))
  {
    match event
    case Offers(key) => SignalGrows(s, key, false);
    case Candidates(key, trickle) => SignalGrows(s, key, trickle);
    case Byes(key) => ByeGrows(s, key);
    case Applied(p) => if p < |s.peers| { AppliedGrows(s, p); }
    case Hands(p) => if p < |s.peers| { HandsGrow(s, p); }
    case Arrives(p, frame) => if p < |s.peers| { ArrivalGrows(s, p, frame); }
    case Takes(p) => if p < |s.peers| { TakePasses(s, p); PassesGrows(s, L.TakeFrame(s, p), p); }
    case Answers(p, ok) => if p < |s.peers| { AnswerPasses(s, p, ok); PassesGrows(s, L.AnswerSettles(s, p, ok), p); }
    case Closes(p) => if p < |s.peers| { ClosePasses(s, p); PassesGrows(s, L.ClosePeer(s, p), p); }
    case Expires(key) =>
    case Finalizes(sid) =>
    case Stops =>
  }

  // ----- what holds of every run -----

  /** The candidates that the messages carry. */
  function Carried(messages: seq<nat>, empty: set<nat>): seq<nat> {
    if messages == [] then []
    else (if messages[0] in empty then [] else [messages[0]]) + Carried(messages[1..], empty)
  }

  /** A connection has received what its peer was passed, in that order; once it is closed, the front of it. */
  ghost predicate Follows(peer: L.Peer, c: N.PeerState, empty: set<nat>) {
    && N.Accounted(c) && N.Ordered(c)
    && c.closed == peer.closed
    && c.received <= Carried(peer.given, empty)
    && (!c.closed ==> c.received == Carried(peer.given, empty))
  }

  ghost predicate Inv(s: Path, empty: set<nat>) {
    && Wf(s) && L.Reached(s.listener)
    && forall p :: 0 <= p < |s.connections| ==> Follows(s.listener.peers[p], s.connections[p], empty)
  }

  lemma Assoc<T>(a: seq<T>, b: seq<T>, c: seq<T>)
    ensures a + (b + c) == (a + b) + c
  {
  }

  lemma {:induction false} CarriedAppend(a: seq<nat>, b: seq<nat>, empty: set<nat>)
    ensures Carried(a + b, empty) == Carried(a, empty) + Carried(b, empty)
  {
    if a == [] {
      assert a + b == b && [] + Carried(b, empty) == Carried(b, empty);
    } else {
      var one := if a[0] in empty then [] else [a[0]];
      var ab := a + b;
      assert ab[1..] == a[1..] + b && ab[0] == a[0];
      assert Carried(ab, empty) == one + Carried(a[1..] + b, empty);
      CarriedAppend(a[1..], b, empty);
      Assoc(one, Carried(a[1..], empty), Carried(b, empty));
    }
  }

  lemma {:induction false} FeedKeeps(c: N.PeerState, messages: seq<nat>, empty: set<nat>)
    requires N.Accounted(c) && N.Ordered(c)
    ensures N.Accounted(Feed(c, messages, empty)) && N.Ordered(Feed(c, messages, empty))
    decreases |messages|
  {
    if messages == [] {
    } else {
      var event := Signal(messages[0], empty);
      N.NextKeeps(c, event);
      FeedKeeps(N.Next(c, event), messages[1..], empty);
    }
  }

  lemma {:induction false} FeedReceives(c: N.PeerState, messages: seq<nat>, empty: set<nat>)
    ensures Feed(c, messages, empty).closed == c.closed
    ensures Feed(c, messages, empty).received == c.received + if c.closed then [] else Carried(messages, empty)
    decreases |messages|
  {
    if messages == [] {
      assert c.received + [] == c.received;
    } else {
      var event := Signal(messages[0], empty);
      var d := N.Next(c, event);
      Received(c, event);
      FeedReceives(d, messages[1..], empty);
      var one := if messages[0] in empty then [] else [messages[0]];
      if c.closed {
        assert c.received + [] == c.received;
      } else {
        assert d.received == c.received + one;
        Assoc(c.received, one, Carried(messages[1..], empty));
      }
    }
  }

  lemma Received(c: N.PeerState, event: N.Event)
    ensures N.Next(c, event).received ==
            c.received + if !c.closed && event.Candidate? && event.candidate.Some? then [event.candidate.value] else []
    ensures event.Candidate? ==> N.Next(c, event).closed == c.closed
    ensures c.closed ==> N.Next(c, event).closed
  {
    match event
    case Candidate(candidate) => if candidate.None? {} else if c.described {} else {}
    case Description =>
    case DescriptionIs(ok) => if c.setting == 0 {} else {}
    case Flush => if c.settled == 0 {} else {}
    case Apply(i, ok) => if i >= |c.flushing| {} else if c.flushing[i] == [] {} else {}
    case Closes =>
  }

  lemma ShutFollows(peer: L.Peer, c: N.PeerState, empty: set<nat>)
    requires N.Accounted(c) && N.Ordered(c) && (c.closed ==> peer.closed)
    requires c.received <= Carried(peer.given, empty)
    requires !peer.closed ==> c.received == Carried(peer.given, empty)
    ensures Follows(peer, Shut(c, peer.closed), empty)
  {
    N.NextKeeps(c, N.Closes);
  }

  lemma PeerFollows(peer: L.Peer, later: L.Peer, c: N.PeerState, empty: set<nat>)
    requires Follows(peer, c, empty) && peer.given <= later.given && (peer.closed ==> later.closed)
    ensures Follows(later, Shut(Feed(c, Since(later, |peer.given|), empty), later.closed), empty)
  {
    var more := Since(later, |peer.given|);
    assert later.given == peer.given + more;
    CarriedAppend(peer.given, more, empty);
    FeedKeeps(c, more, empty);
    FeedReceives(c, more, empty);
    ShutFollows(later, Feed(c, more, empty), empty);
  }

  lemma NewFollows(peer: L.Peer, empty: set<nat>)
    requires peer.given == [] && !peer.closed
    ensures Follows(peer, Shut(Feed(N.NEW_PEER, Since(peer, 0), empty), peer.closed), empty)
  {
    assert Since(peer, 0) == [];
    FeedKeeps(N.NEW_PEER, [], empty);
  }

  lemma HearKeeps(s: Path, event: L.Event, empty: set<nat>)
    requires Inv(s, empty)
    ensures Inv(Hear(s, event, empty), empty)
  {
    var t := Hear(s, event, empty);
    NextGrows(s.listener, event);
    L.StepKeeps(s.listener, event);
    forall p | 0 <= p < |t.connections|
      ensures Follows(t.listener.peers[p], t.connections[p], empty)
    {
      if p < |s.connections| {
        PeerFollows(s.listener.peers[p], t.listener.peers[p], s.connections[p], empty);
      } else {
        NewFollows(t.listener.peers[p], empty);
      }
    }
  }

  lemma WorkFollows(peer: L.Peer, c: N.PeerState, event: N.Event, empty: set<nat>)
    requires Follows(peer, c, empty) && !event.Candidate?
    ensures Follows(if N.Next(c, event).closed then peer.(closed := true) else peer, N.Next(c, event), empty)
  {
    N.NextKeeps(c, event);
    Received(c, event);
    assert c.received + [] == c.received;
  }

  lemma WorkChangesOne(s: Path, p: nat, event: N.Event)
    requires Wf(s) && p < |s.connections|
    ensures var t, c := Work(s, p, event), N.Next(s.connections[p], event);
            && t.connections == s.connections[p := c]
            && t.listener.peers == (if c.closed then s.listener.peers[p := s.listener.peers[p].(closed := true)] else s.listener.peers)
  {
    CloseKeepsPeers(s.listener, p);
  }

  lemma WorkIsReached(s: Path, p: nat, event: N.Event)
    requires Wf(s) && L.Reached(s.listener) && p < |s.connections|
    ensures L.Reached(Work(s, p, event).listener)
  {
    L.StepKeeps(s.listener, L.Closes(p));
  }

  lemma WorkFollowsAll(s: Path, p: nat, event: N.Event, t: Path, empty: set<nat>, q: nat)
    requires Inv(s, empty) && p < |s.connections| && !event.Candidate? && q < |s.connections|
    requires t == Work(s, p, event) && Wf(t)
    ensures Follows(t.listener.peers[q], t.connections[q], empty)
  {
    WorkChangesOne(s, p, event);
    assert Follows(s.listener.peers[q], s.connections[q], empty);
    if q == p {
      WorkFollows(s.listener.peers[p], s.connections[p], event, empty);
    }
  }

  lemma WorkKeeps(s: Path, p: nat, event: N.Event, empty: set<nat>)
    requires Inv(s, empty) && p < |s.connections| && !event.Candidate?
    ensures Inv(Next(s, Inside(p, event), empty), empty)
  {
    var t := Next(s, Inside(p, event), empty);
    WorkChangesOne(s, p, event);
    WorkIsReached(s, p, event);
    forall q | 0 <= q < |t.connections|
      ensures Follows(t.listener.peers[q], t.connections[q], empty)
    {
      WorkFollowsAll(s, p, event, t, empty, q);
    }
  }

  lemma {:induction false} RunKeeps(s: Path, events: seq<Event>, empty: set<nat>)
    requires Inv(s, empty)
    ensures Inv(Run(s, events, empty), empty)
    decreases |events|
  {
    if events == [] {
    } else {
      match events[0] {
        case Hears(e) => HearKeeps(s, e, empty);
        case Inside(p, e) => if p < |s.connections| && !e.Candidate? { WorkKeeps(s, p, e, empty); }
      }
      RunKeeps(Next(s, events[0], empty), events[1..], empty);
    }
  }

  lemma NewPathKeeps(empty: set<nat>)
    ensures Inv(NEW_PATH, empty)
  {
    assert L.Run(L.NEW_LISTENER, []) == L.NEW_LISTENER;
  }

  lemma {:induction false} CarriedCount(messages: seq<nat>, empty: set<nat>, c: nat)
    ensures multiset(Carried(messages, empty))[c] <= multiset(messages)[c]
  {
    if messages != [] {
      var one := if messages[0] in empty then [] else [messages[0]];
      CarriedCount(messages[1..], empty, c);
      assert messages == [messages[0]] + messages[1..];
      assert multiset(Carried(messages, empty)) == multiset(one) + multiset(Carried(messages[1..], empty));
      assert multiset(messages) == multiset([messages[0]]) + multiset(messages[1..]);
    }
  }

  lemma PrefixCount(a: seq<nat>, b: seq<nat>, c: nat)
    requires a <= b
    ensures multiset(a)[c] <= multiset(b)[c]
  {
    assert b == a + b[|a|..];
    assert multiset(b) == multiset(a) + multiset(b[|a|..]);
  }

  lemma AppliedWasGiven(peer: L.Peer, x: N.PeerState, empty: set<nat>, c: nat)
    requires Follows(peer, x, empty)
    ensures multiset(x.applied)[c] <= multiset(peer.given)[c]
  {
    assert N.Placed(x, c) <= multiset(x.received)[c];
    PrefixCount(x.received, Carried(peer.given, empty), c);
    CarriedCount(peer.given, empty, c);
  }

  /**
   * In every run of the listener together with its peers: a candidate that arrived is applied to
   * one connection at most, and to that at most once.
   */
  lemma CandidateIsAppliedOnce(events: seq<Event>, empty: set<nat>, p: nat, q: nat, c: nat)
    requires p < |Run(NEW_PATH, events, empty).connections| && q < |Run(NEW_PATH, events, empty).connections|
    ensures var s := Run(NEW_PATH, events, empty);
            var x, y := s.connections[p], s.connections[q];
            && multiset(x.applied)[c] <= 1
            && (c in x.applied && c in y.applied ==> p == q)
  {
    NewPathKeeps(empty);
    RunKeeps(NEW_PATH, events, empty);
    var s := Run(NEW_PATH, events, empty);
    var x, y := s.connections[p], s.connections[q];
    var heard: seq<L.Event> :| L.Run(L.NEW_LISTENER, heard) == s.listener;
    ListenerCandidates.CandidateAtMostOnce(heard, c, p, q);
    AppliedWasGiven(s.listener.peers[p], x, empty, c);
    AppliedWasGiven(s.listener.peers[q], y, empty, c);
    assert c in x.applied <==> multiset(x.applied)[c] > 0;
    assert c in y.applied <==> multiset(y.applied)[c] > 0;
    assert c in s.listener.peers[p].given <==> multiset(s.listener.peers[p].given)[c] > 0;
    assert c in s.listener.peers[q].given <==> multiset(s.listener.peers[q].given)[c] > 0;
  }

  /**
   * And none is lost on the way: once an open connection has its description and every flush has
   * run, it has been given exactly the candidates that the listener passed to its peer.
   */
  lemma NoneIsLost(events: seq<Event>, empty: set<nat>, p: nat)
    requires p < |Run(NEW_PATH, events, empty).connections|
    requires var x := Run(NEW_PATH, events, empty).connections[p];
             !x.closed && x.described && x.settled == 0 && x.flushing == []
    ensures var s := Run(NEW_PATH, events, empty);
            multiset(s.connections[p].applied) == multiset(Carried(s.listener.peers[p].given, empty))
  {
    NewPathKeeps(empty);
    RunKeeps(NEW_PATH, events, empty);
    var s := Run(NEW_PATH, events, empty);
    var x := s.connections[p];
    assert Follows(s.listener.peers[p], x, empty);
    forall c
      ensures multiset(x.applied)[c] == multiset(x.received)[c]
    {
      assert N.Placed(x, c) == multiset(x.received)[c];
      assert x.pending == [];
    }
  }
}
