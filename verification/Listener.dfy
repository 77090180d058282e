/**
 * startNativeWebRtcListener: offers become attempts, attempts that authenticate are bound to
 * the stream of their remote peer, and lost ones are unbound. A step is the code between two
 * awaits; signaling, timers and connections take steps in any order.
 */
module Listener {
  import opened Bytes
  import opened CandidateCache
  import opened StreamLinks

  const MAX_LISTENER_ATTEMPTS: nat := 64
  const MAX_LISTENER_ATTEMPTS_PER_PEER: nat := 4

  /**
   * `frames` is what waits on the receive chain; while `answering`, the chain waits for the
   * answer to a challenge. `handing` is what the offer's continuation has still to pass to
   * signal, and `given`, which is history, the candidates that were passed to it.
   */
  datatype Peer = Peer(
    key: Key,
    closed: bool,
    challengeAnswered: bool,
    authenticated: bool,
    answering: bool,
    frames: seq<Frame>,
    handedOver: bool,
    handing: seq<Message>,
    given: seq<Message>)

  function NewPeer(key: Key): Peer {
    Peer(key, false, false, false, false, [], false, [], [])
  }

  datatype Stream = Stream(remote: string, closed: bool, calls: seq<Call>)

  datatype Entry = Entry(stream: nat, link: Option<nat>)

  /** What becomes of a peer, in the order in which it happens. */
  datatype Mark = AnsweredChallenge(peer: nat) | SawReady(peer: nat) | HandedFrame(peer: nat)

  /**
   * Peers and streams are named by their place in `peers` and `all`. `arrivals` counts the
   * candidates that arrived, and `trace` is history.
   */
  datatype ListenerState = ListenerState(
    closed: bool,
    arrivals: nat,
    peers: seq<Peer>,
    attempts: map<Key, nat>,
    cache: Groups,
    streams: map<string, Entry>,
    all: seq<Stream>,
    trace: seq<Mark>)

  const NEW_LISTENER: ListenerState := ListenerState(false, 0, [], map[], [], map[], [], [])

  /** Every name names something. */
  predicate Wf(s: ListenerState) {
    && (forall key :: key in s.attempts ==> s.attempts[key] < |s.peers|)
    && (forall remote :: remote in s.streams ==> s.streams[remote].stream < |s.all|)
  }

  function OfRemote(attempts: map<Key, nat>, remote: string): set<Key> {
    set key | key in attempts && key.remote == remote
  }

  function SetPeer(s: ListenerState, p: nat, peer: Peer): (t: ListenerState)
    requires Wf(s) && p < |s.peers|
    ensures Wf(t)
  {
    s.(peers := s.peers[p := peer])
  }

  function SetCalls(s: ListenerState, sid: nat, call: Call): (t: ListenerState)
    requires Wf(s) && sid < |s.all|
    ensures Wf(t)
  {
    s.(all := s.all[sid := s.all[sid].(calls := s.all[sid].calls + [call])])
  }

  function Cleanup(s: ListenerState, p: nat): (t: ListenerState)
    requires Wf(s) && p < |s.peers|
    ensures Wf(t)
  {
    var key := s.peers[p].key;
    s.(cache := Forget(s.cache, key),
       attempts := if key in s.attempts && s.attempts[key] == p then s.attempts - {key} else s.attempts)
  }

  /** The stream of the remote peer loses its link, if it was this peer. */
  function Unlink(s: ListenerState, p: nat): (t: ListenerState)
    requires Wf(s) && p < |s.peers|
    ensures Wf(t)
  {
    var remote := s.peers[p].key.remote;
    if remote !in s.streams || s.streams[remote].link != Some(p) || s.all[s.streams[remote].stream].closed then s
    else
      var entry := s.streams[remote];
      SetCalls(s.(streams := s.streams[remote := entry.(link := None)]), entry.stream, Lost(p))
  }

  /** peer.close, which runs handleLost the first time. */
  function ClosePeer(s: ListenerState, p: nat): (t: ListenerState)
    requires Wf(s) && p < |s.peers|
    ensures Wf(t)
  {
    if s.peers[p].closed then s
    else Unlink(Cleanup(SetPeer(s, p, s.peers[p].(closed := true)), p), p)
  }

  function OpenStream(s: ListenerState, p: nat): (t: ListenerState)
    requires Wf(s) && p < |s.peers|
    ensures Wf(t)
  {
    var remote := s.peers[p].key.remote;
    s.(all := s.all + [Stream(remote, false, [Opened(p)])],
       streams := s.streams[remote := Entry(|s.all|, Some(p))])
  }

  function ActivateStream(s: ListenerState, p: nat): (t: ListenerState)
    requires Wf(s) && p < |s.peers|
    ensures Wf(t)
  {
    var remote := s.peers[p].key.remote;
    if remote !in s.streams then OpenStream(s, p)
    else
      var entry := s.streams[remote];
      if s.all[entry.stream].closed then OpenStream(s.(streams := s.streams - {remote}), p)
      else if entry.link.Some? && entry.link != Some(p) then ClosePeer(s, p)
      else SetCalls(s.(streams := s.streams[remote := entry.(link := Some(p))]), entry.stream, Rebound(p))
  }

  function HandFrame(s: ListenerState, p: nat, frame: Frame): (t: ListenerState)
    requires Wf(s) && p < |s.peers|
    ensures Wf(t)
  {
    var remote := s.peers[p].key.remote;
    if remote !in s.streams || s.streams[remote].link != Some(p) then s
    else
      match frame
      case Data(_) => SetCalls(s.(trace := s.trace + [HandedFrame(p)]), s.streams[remote].stream, Delivered(p, frame))
      case Control => SetCalls(s.(trace := s.trace + [HandedFrame(p)]), s.streams[remote].stream, Delivered(p, frame))
      case _ => s
  }

  function OnFrame(s: ListenerState, p: nat, frame: Frame): (t: ListenerState)
    requires Wf(s) && p < |s.peers|
    ensures Wf(t)
  {
    var peer := s.peers[p];
    match frame
    case Undecodable => ClosePeer(s, p)
    case Challenge => SetPeer(s, p, peer.(answering := true))
    case Ready =>
      if !peer.challengeAnswered then ClosePeer(s, p)
      else if peer.authenticated then s
      else ActivateStream(SetPeer(s.(trace := s.trace + [SawReady(p)]), p, peer.(authenticated := true)), p)
    case _ =>
      if !peer.authenticated then ClosePeer(s, p) else HandFrame(s, p, frame)
  }

  /** The receive chain takes its next frame. */
  function TakeFrame(s: ListenerState, p: nat): (t: ListenerState)
    requires Wf(s) && p < |s.peers|
    ensures Wf(t)
  {
    var peer := s.peers[p];
    if peer.answering || peer.frames == [] then s
    else OnFrame(SetPeer(s, p, peer.(frames := peer.frames[1..])), p, peer.frames[0])
  }

  /** The answer to a challenge was sent, or failed. */
  function AnswerSettles(s: ListenerState, p: nat, ok: bool): (t: ListenerState)
    requires Wf(s) && p < |s.peers|
    ensures Wf(t)
  {
    var peer := s.peers[p];
    if !peer.answering then s
    else if ok then
      SetPeer(s.(trace := s.trace + [AnsweredChallenge(p)]), p, peer.(answering := false, challengeAnswered := true))
    else ClosePeer(SetPeer(s, p, peer.(answering := false)), p)
  }

  function AnswerOffer(s: ListenerState, key: Key): (t: ListenerState)
    requires Wf(s)
    ensures Wf(t)
  {
    if s.closed || key in s.attempts then s
    else if |s.attempts| >= MAX_LISTENER_ATTEMPTS then s
    else if |OfRemote(s.attempts, key.remote)| >= MAX_LISTENER_ATTEMPTS_PER_PEER then s
    else s.(peers := s.peers + [NewPeer(key)], attempts := s.attempts[key := |s.peers|])
  }

  /** A candidate goes to its attempt, or is cached if the adapter trickles. */
  function ReceiveCandidate(s: ListenerState, key: Key, trickle: bool): (t: ListenerState)
    requires Wf(s)
    ensures Wf(t)
  {
    var t := s.(arrivals := s.arrivals + 1);
    if s.closed then t
    else if key in s.attempts then
      var p := s.attempts[key];
      SetPeer(t, p, s.peers[p].(given := s.peers[p].given + [s.arrivals]))
    else if trickle then t.(cache := Queue(s.cache, key, s.arrivals))
    else t
  }

  function ReceiveBye(s: ListenerState, key: Key): (t: ListenerState)
    requires Wf(s)
    ensures Wf(t)
  {
    if s.closed then s
    else
      var t := s.(cache := Forget(s.cache, key));
      if key in s.attempts then ClosePeer(t, s.attempts[key]) else t
  }

  /** The offer was applied: its continuation takes the cached candidates. */
  function OfferApplied(s: ListenerState, p: nat): (t: ListenerState)
    requires Wf(s) && p < |s.peers|
    ensures Wf(t)
  {
    var peer := s.peers[p];
    if peer.handedOver then s
    else
      SetPeer(s.(cache := Forget(s.cache, peer.key)), p,
              peer.(handedOver := true, handing := Messages(s.cache, peer.key)))
  }

  function HandNext(s: ListenerState, p: nat): (t: ListenerState)
    requires Wf(s) && p < |s.peers|
    ensures Wf(t)
  {
    var peer := s.peers[p];
    if peer.handing == [] then s
    else SetPeer(s, p, peer.(handing := peer.handing[1..], given := peer.given + [peer.handing[0]]))
  }

  /** onFinalize of a stream. */
  function Finalize(s: ListenerState, sid: nat): (t: ListenerState)
    requires Wf(s) && sid < |s.all|
    ensures Wf(t)
  {
    var stream := s.all[sid];
    if stream.closed then s
    else
      s.(all := s.all[sid := stream.(closed := true)],
         streams := if stream.remote in s.streams && s.streams[stream.remote].stream == sid
                    then s.streams - {stream.remote} else s.streams)
  }

  datatype Event =
    | Offers(key: Key)
    | Candidates(key: Key, trickle: bool)
    | Byes(key: Key)
    | Applied(peer: nat)
    | Hands(peer: nat)
    | Arrives(peer: nat, frame: Frame)
    | Takes(peer: nat)
    | Answers(peer: nat, ok: bool)
    | Closes(peer: nat)       // the attempt's timer, the connection, the application or close()
    | Expires(key: Key)       // the timer of a cached group
    | Finalizes(stream: nat)  // the stream, for any reason it has, among them close()
    | Stops                   // close(): signals are no longer heard

  function Next(s: ListenerState, event: Event): (t: ListenerState)
    requires Wf(s)
    ensures Wf(t)
  {
    match event
    case Offers(key) => AnswerOffer(s, key)
    case Candidates(key, trickle) => ReceiveCandidate(s, key, trickle)
    case Byes(key) => ReceiveBye(s, key)
    case Applied(p) => if p < |s.peers| then OfferApplied(s, p) else s
    case Hands(p) => if p < |s.peers| then HandNext(s, p) else s
    case Arrives(p, frame) =>
      if p < |s.peers| then SetPeer(s, p, s.peers[p].(frames := s.peers[p].frames + [frame])) else s
    case Takes(p) => if p < |s.peers| then TakeFrame(s, p) else s
    case Answers(p, ok) => if p < |s.peers| then AnswerSettles(s, p, ok) else s
    case Closes(p) => if p < |s.peers| then ClosePeer(s, p) else s
    case Expires(key) => s.(cache := Forget(s.cache, key))
    case Finalizes(sid) => if sid < |s.all| then Finalize(s, sid) else s
    case Stops => s.(closed := true)
  }

  function Run(s: ListenerState, events: seq<Event>): (t: ListenerState)
    requires Wf(s)
    ensures Wf(t)
    decreases |events|
  {
    if events == [] then s else Run(Next(s, events[0]), events[1..])
  }

  // ----- the object -----

  ghost predicate Reached(s: ListenerState) {
    exists events: seq<Event> :: Run(NEW_LISTENER, events) == s
  }

  lemma {:induction false} RunSnoc(s: ListenerState, events: seq<Event>, event: Event)
    requires Wf(s)
    ensures Run(s, events + [event]) == Next(Run(s, events), event)
    decreases |events|
  {
    if events == [] {
      assert [] + [event] == [event] && [event][1..] == [];
    } else {
      RunSnoc(Next(s, events[0]), events[1..], event);
      assert (events + [event])[1..] == events[1..] + [event];
    }
  }

  lemma StepKeeps(s: ListenerState, event: Event)
    requires Wf(s)
    ensures Reached(s) ==> Reached(Next(s, event))
  {
    if Reached(s) {
      var events: seq<Event> :| Run(NEW_LISTENER, events) == s;
      RunSnoc(NEW_LISTENER, events, event);
      assert Run(NEW_LISTENER, events + [event]) == Next(s, event);
    }
  }

  class NativeWebRtcListener {
    var closed: bool
    var peers: seq<Peer>
    var attempts: map<Key, nat>
    var pendingCandidates: Groups
    var streams: map<string, Entry>
    var all: seq<Stream>
    var arrivals: nat
    ghost var trace: seq<Mark>

    ghost function State(): ListenerState
      reads this
    {
      ListenerState(closed, arrivals, peers, attempts, pendingCandidates, streams, all, trace)
    }

    /** The state is one that a run reaches. */
    ghost predicate Valid()
      reads this
    {
      Reached(State())
    }

    constructor ()
      ensures State() == NEW_LISTENER && Valid()
    {
      assert Run(NEW_LISTENER, []) == NEW_LISTENER;
      closed, arrivals, peers, attempts, pendingCandidates := false, 0, [], map[], [];
      streams, all, trace := map[], [], [];
    }

    /** Gives out the cached candidates of a key; no other group is touched. */
    method ForgetPendingCandidates(key: Key) returns (messages: seq<Message>)
      requires Wf(State())
      modifies this
      ensures State() == old(State()).(cache := pendingCandidates)
      ensures messages == Messages(old(pendingCandidates), key)
      ensures pendingCandidates == Forget(old(pendingCandidates), key)
      ensures Bounded(old(pendingCandidates)) ==>
                && Bounded(pendingCandidates) && !Has(pendingCandidates, key)
                && forall other :: other != key ==>
                     Messages(pendingCandidates, other) == Messages(old(pendingCandidates), other)
      ensures old(Valid()) ==> Valid()
    {
      StepKeeps(State(), Expires(key));
      ghost var before := pendingCandidates;
      messages := Messages(pendingCandidates, key);
      pendingCandidates := Forget(pendingCandidates, key);
      if Bounded(before) {
        ForgetKeeps(before, key);
        forall other | other != key
          ensures Messages(pendingCandidates, other) == Messages(before, other)
        {
          ForgetMessages(before, key, other);
        }
      }
    }

    /**
     * Caches a candidate: its group begins or grows up to the limit; another group changes only
     * if it is the oldest and has to make room.
     */
    method QueuePendingCandidate(key: Key, message: Message)
      requires Wf(State())
      modifies this
      ensures State() == old(State()).(cache := pendingCandidates)
      ensures pendingCandidates == Queue(old(pendingCandidates), key, message)
      ensures Bounded(old(pendingCandidates)) ==>
                && Bounded(pendingCandidates)
                && Messages(pendingCandidates, key) ==
                   (if |Messages(old(pendingCandidates), key)| < MAX_PENDING_CANDIDATES_PER_ATTEMPT
                    then Messages(old(pendingCandidates), key) + [message] else Messages(old(pendingCandidates), key))
                && forall other :: other != key && (old(pendingCandidates) == [] || other != old(pendingCandidates)[0].key) ==>
                     Messages(pendingCandidates, other) == Messages(old(pendingCandidates), other)
    {
      ghost var before := pendingCandidates;
      if Has(pendingCandidates, key) {
        pendingCandidates := Join(pendingCandidates, key, message);
      } else {
        if |pendingCandidates| >= MAX_PENDING_CANDIDATE_SESSIONS {
          OldestForgotten(pendingCandidates);
          var _ := ForgetPendingCandidates(pendingCandidates[0].key);
        }
        pendingCandidates := pendingCandidates + [Group(key, [message])];
      }
      if Bounded(before) {
        QueueKeeps(before, key, message);
        QueueMessages(before, key, message, key);
        forall other | other != key && (before == [] || other != before[0].key)
          ensures Messages(pendingCandidates, other) == Messages(before, other)
        {
          QueueMessages(before, key, message, other);
        }
      }
    }

    method CleanupAttempt(p: nat)
      requires Wf(State()) && p < |peers|
      modifies this
      ensures State() == Cleanup(old(State()), p)
    {
      var key := peers[p].key;
      var _ := ForgetPendingCandidates(key);
      if key in attempts && attempts[key] == p {
        attempts := attempts - {key};
      }
    }

    /** peer.close(), with handleLost as the peer's onClose. */
    method Close(p: nat)
      requires Wf(State()) && p < |peers|
      modifies this
      ensures State() == ClosePeer(old(State()), p)
      ensures old(Valid()) ==> Valid()
    {
      StepKeeps(State(), Closes(p));
      if peers[p].closed { return; }
      var remote := peers[p].key.remote;
      peers := peers[p := peers[p].(closed := true)];
      CleanupAttempt(p);
      if remote !in streams { return; }
      var entry := streams[remote];
      if entry.link != Some(p) || all[entry.stream].closed { return; }
      streams := streams[remote := entry.(link := None)];
      all := all[entry.stream := all[entry.stream].(calls := all[entry.stream].calls + [Lost(p)])];
    }

    method NewStream(p: nat)
      requires Wf(State()) && p < |peers|
      modifies this
      ensures State() == OpenStream(old(State()), p)
    {
      var remote := peers[p].key.remote;
      streams := streams[remote := Entry(|all|, Some(p))];
      all := all + [Stream(remote, false, [Opened(p)])];
    }

    method Activate(p: nat)
      requires Wf(State()) && p < |peers|
      modifies this
      ensures State() == ActivateStream(old(State()), p)
    {
      var remote := peers[p].key.remote;
      if remote in streams {
        var existing := streams[remote];
        if all[existing.stream].closed {
          streams := streams - {remote};
        } else if existing.link.Some? && existing.link != Some(p) {
          Close(p);
          return;
        } else {
          streams := streams[remote := existing.(link := Some(p))];
          all := all[existing.stream := all[existing.stream].(calls := all[existing.stream].calls + [Rebound(p)])];
          return;
        }
      }
      NewStream(p);
    }

    method HandOn(p: nat, frame: Frame)
      requires Wf(State()) && p < |peers|
      modifies this
      ensures State() == HandFrame(old(State()), p, frame)
    {
      var remote := peers[p].key.remote;
      if remote !in streams || streams[remote].link != Some(p) { return; }
      if frame.Data? || frame.Control? {
        var sid := streams[remote].stream;
        trace := trace + [HandedFrame(p)];
        all := all[sid := all[sid].(calls := all[sid].calls + [Delivered(p, frame)])];
      }
    }

    method ReceiveFrame(p: nat, frame: Frame)
      requires Wf(State()) && p < |peers|
      modifies this
      ensures State() == OnFrame(old(State()), p, frame)
    {
      match frame {
        case Undecodable =>
          Close(p);
        case Challenge =>
          peers := peers[p := peers[p].(answering := true)];
        case Ready =>
          if !peers[p].challengeAnswered {
            Close(p);
          } else if !peers[p].authenticated {
            trace := trace + [SawReady(p)];
            peers := peers[p := peers[p].(authenticated := true)];
            Activate(p);
          }
        case _ =>
          if !peers[p].authenticated {
            Close(p);
          } else {
            HandOn(p, frame);
          }
      }
    }

    /** The receive chain takes its next frame, unless it still waits for the answer to a challenge. */
    method ProcessFrame(p: nat)
      requires Wf(State()) && p < |peers|
      modifies this
      ensures State() == TakeFrame(old(State()), p)
      ensures old(Valid()) ==> Valid()
    {
      StepKeeps(State(), Takes(p));
      if peers[p].answering || peers[p].frames == [] { return; }
      var frame := peers[p].frames[0];
      peers := peers[p := peers[p].(frames := peers[p].frames[1..])];
      ReceiveFrame(p, frame);
    }

    method FinishAnswer(p: nat, ok: bool)
      requires Wf(State()) && p < |peers|
      modifies this
      ensures State() == AnswerSettles(old(State()), p, ok)
      ensures old(Valid()) ==> Valid()
    {
      StepKeeps(State(), Answers(p, ok));
      if !peers[p].answering { return; }
      if ok {
        trace := trace + [AnsweredChallenge(p)];
        peers := peers[p := peers[p].(answering := false, challengeAnswered := true)];
      } else {
        peers := peers[p := peers[p].(answering := false)];
        Close(p);
      }
    }

    method ReceiveOffer(key: Key) returns (r: Result<bool, string>)
      requires Wf(State())
      modifies this
      ensures State() == AnswerOffer(old(State()), key)
      ensures r.Err? ==> State() == old(State())
      ensures old(Valid()) ==> Valid()
    {
      StepKeeps(State(), Offers(key));
      if closed || key in attempts { return Ok(false); }
      if |attempts| >= MAX_LISTENER_ATTEMPTS {
        return Err("Native WebRTC listener is at its pending connection limit");
      }
      if |OfRemote(attempts, key.remote)| >= MAX_LISTENER_ATTEMPTS_PER_PEER {
        return Err("Native WebRTC peer has too many pending connections");
      }
      attempts := attempts[key := |peers|];
      peers := peers + [NewPeer(key)];
      return Ok(true);
    }

    method AcceptCandidate(key: Key, trickle: bool)
      requires Wf(State())
      modifies this
      ensures State() == ReceiveCandidate(old(State()), key, trickle)
      ensures old(Valid()) ==> Valid()
    {
      StepKeeps(State(), Candidates(key, trickle));
      var message := arrivals;
      arrivals := arrivals + 1;
      if closed { return; }
      if key in attempts {
        var p := attempts[key];
        peers := peers[p := peers[p].(given := peers[p].given + [message])];
      } else if trickle {
        QueuePendingCandidate(key, message);
      }
    }

    method AcceptBye(key: Key)
      requires Wf(State())
      modifies this
      ensures State() == ReceiveBye(old(State()), key)
      ensures old(Valid()) ==> Valid()
    {
      StepKeeps(State(), Byes(key));
      if closed { return; }
      var _ := ForgetPendingCandidates(key);
      if key in attempts {
        Close(attempts[key]);
      }
    }

    method FinishOffer(p: nat)
      requires Wf(State()) && p < |peers|
      modifies this
      ensures State() == OfferApplied(old(State()), p)
      ensures old(Valid()) ==> Valid()
    {
      StepKeeps(State(), Applied(p));
      if peers[p].handedOver { return; }
      var messages := ForgetPendingCandidates(peers[p].key);
      peers := peers[p := peers[p].(handedOver := true, handing := messages)];
    }

    method HandCandidate(p: nat)
      requires Wf(State()) && p < |peers|
      modifies this
      ensures State() == HandNext(old(State()), p)
      ensures old(Valid()) ==> Valid()
    {
      StepKeeps(State(), Hands(p));
      var peer := peers[p];
      if peer.handing != [] {
        peers := peers[p := peer.(handing := peer.handing[1..], given := peer.given + [peer.handing[0]])];
      }
    }

    /** A frame arrives on the data channel of a peer. */
    method Arrive(p: nat, frame: Frame)
      requires Wf(State()) && p < |peers|
      modifies this
      ensures State() == Next(old(State()), Arrives(p, frame))
      ensures old(Valid()) ==> Valid()
    {
      StepKeeps(State(), Arrives(p, frame));
      peers := peers[p := peers[p].(frames := peers[p].frames + [frame])];
    }

    /** close(), up to its first await: signals are no longer heard. */
    method Stop()
      requires Wf(State())
      modifies this
      ensures State() == Next(old(State()), Stops)
      ensures old(Valid()) ==> Valid()
    {
      StepKeeps(State(), Stops);
      closed := true;
    }

    method FinalizeStream(sid: nat)
      requires Wf(State()) && sid < |all|
      modifies this
      ensures State() == Finalize(old(State()), sid)
      ensures old(Valid()) ==> Valid()
    {
      StepKeeps(State(), Finalizes(sid));
      var stream := all[sid];
      if stream.closed { return; }
      all := all[sid := stream.(closed := true)];
      if stream.remote in streams && streams[stream.remote].stream == sid {
        streams := streams - {stream.remote};
      }
    }
  }
}
