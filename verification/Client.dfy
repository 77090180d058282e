/**
 * connectNativeWebRtc: signaling sessions race, one authenticated peer is claimed for the one
 * stream, and a lost one is replaced. A step is the code between two awaits; signaling, timers
 * and connections take steps in any order.
 */
module Client {
  import opened Bytes
  import opened StreamLinks

  /** Where the receive chain of an attempt waits: nowhere, or in one of the awaits of claimPeer. */
  datatype Stage = Idle | Verifying | SendingReady | Confirming

  /** `bound`, which is history, says that the stream was bound to the peer of this attempt. */
  datatype Attempt = Attempt(
    session: nat,
    closed: bool,
    authenticated: bool,
    bound: bool,
    stage: Stage,
    frames: seq<Frame>)

  function NewAttempt(session: nat): Attempt {
    Attempt(session, false, false, false, Idle, [])
  }

  datatype Stream = Stream(closed: bool, calls: seq<Call>)

  datatype Mark = ResponseVerified(peer: nat) | HandedFrame(peer: nat)

  /** An attempt and its peer are named by their place in `peers`; `trace` is history. */
  datatype ClientState = ClientState(
    closed: bool,
    link: Option<nat>,
    attempts: set<nat>,
    peers: seq<Attempt>,
    stream: Option<Stream>,
    trace: seq<Mark>)

  const NEW_CLIENT: ClientState := ClientState(false, None, {}, [], None, [])

  predicate StreamClosed(stream: Option<Stream>) {
    stream.Some? && stream.value.closed
  }

  function WithCall(stream: Stream, call: Call): Stream {
    stream.(calls := stream.calls + [call])
  }

  /** startAttempt after `session.ready`; its guards hold again what startRound tested. */
  function StartAttempt(s: ClientState, session: nat): ClientState {
    if s.closed || s.link.Some? || StreamClosed(s.stream) then s
    else if exists p :: p in s.attempts && p < |s.peers| && s.peers[p].session == session then s
    else s.(peers := s.peers + [NewAttempt(session)], attempts := s.attempts + {|s.peers|})
  }

  function HandleActivePeerLost(s: ClientState, p: nat): ClientState {
    if s.closed || s.link != Some(p) || s.stream.None? || s.stream.value.closed then s
    else s.(link := None, stream := Some(WithCall(s.stream.value, Lost(p))))
  }

  /** peer.close, which runs the attempt's onClose the first time. */
  function ClosePeer(s: ClientState, p: nat): (t: ClientState)
    requires p < |s.peers|
    ensures |t.peers| == |s.peers|
  {
    if s.peers[p].closed then s
    else
      var t := s.(peers := s.peers[p := s.peers[p].(closed := true)], attempts := s.attempts - {p});
      if s.peers[p].authenticated then HandleActivePeerLost(t, p) else t
  }

  function CloseAttempt(s: ClientState, p: nat): (t: ClientState)
    requires p < |s.peers|
    ensures |t.peers| == |s.peers|
  {
    ClosePeer(s.(attempts := s.attempts - {p}), p)
  }

  /** The first n attempts are closed, except one. */
  function CloseOthers(s: ClientState, except: nat, n: nat): (t: ClientState)
    requires n <= |s.peers|
    ensures |t.peers| == |s.peers|
    decreases n
  {
    if n == 0 then s
    else
      var t := CloseOthers(s, except, n - 1);
      if n - 1 in s.attempts && n - 1 != except then CloseAttempt(t, n - 1) else t
  }

  /** claimPeer up to sending AUTH_READY: the response was verified, or not. */
  function VerifySettles(s: ClientState, p: nat, ok: bool): (t: ClientState)
    requires p < |s.peers|
    ensures |t.peers| == |s.peers|
  {
    if s.peers[p].stage != Verifying then s
    else
      var idle := s.(peers := s.peers[p := s.peers[p].(stage := Idle)]);
      if !ok || s.closed || (s.link.Some? && s.link != Some(p)) then ClosePeer(idle, p)
      else
        s.(peers := s.peers[p := s.peers[p].(stage := SendingReady)],
           link := Some(p),
           trace := s.trace + [ResponseVerified(p)])
  }

  /** The stream is created, or bound again. */
  function BindStream(stream: Option<Stream>, p: nat): Stream {
    match stream
    case None => Stream(false, [Opened(p)])
    case Some(st) => WithCall(st, Rebound(p))
  }

  /** claimPeer after sending AUTH_READY. */
  function ReadySettles(s: ClientState, p: nat, ok: bool): (t: ClientState)
    requires p < |s.peers|
    ensures |t.peers| == |s.peers|
  {
    if s.peers[p].stage != SendingReady then s
    else if !ok then ClosePeer(s.(peers := s.peers[p := s.peers[p].(stage := Idle)]), p)
    else
      CloseOthers(
        s.(peers := s.peers[p := s.peers[p].(stage := Confirming, bound := true)], stream := Some(BindStream(s.stream, p))),
        p, |s.peers|)
  }

  /** onFrame after claimPeer. */
  function Confirm(s: ClientState, p: nat): (t: ClientState)
    requires p < |s.peers|
    ensures |t.peers| == |s.peers|
  {
    if s.peers[p].stage != Confirming then s
    else s.(peers := s.peers[p := s.peers[p].(stage := Idle, authenticated := true)])
  }

  function OnFrame(s: ClientState, p: nat, frame: Frame): (t: ClientState)
    requires p < |s.peers|
    ensures |t.peers| == |s.peers|
  {
    var peer := s.peers[p];
    if frame.Undecodable? then ClosePeer(s, p)
    else if frame.Response? then
      if peer.authenticated then s else s.(peers := s.peers[p := peer.(stage := Verifying)])
    else if !peer.authenticated || s.link != Some(p) || s.stream.None? then ClosePeer(s, p)
    else if frame.Data? || frame.Control? then
      s.(stream := Some(WithCall(s.stream.value, Delivered(p, frame))), trace := s.trace + [HandedFrame(p)])
    else s
  }

  /** The receive chain takes its next frame, unless it waits in claimPeer. */
  function TakeFrame(s: ClientState, p: nat): (t: ClientState)
    requires p < |s.peers|
    ensures |t.peers| == |s.peers|
  {
    var peer := s.peers[p];
    if peer.stage != Idle || peer.frames == [] then s
    else OnFrame(s.(peers := s.peers[p := peer.(frames := peer.frames[1..])]), p, peer.frames[0])
  }

  /** close() after its farewell: every attempt is closed, and the stream is left. */
  function Sweep(s: ClientState): ClientState {
    if !s.closed then s
    else
      var t := CloseOthers(s, |s.peers|, |s.peers|);
      t.(link := None,
         stream := if t.stream.None? || t.stream.value.closed then t.stream
                   else Some(WithCall(t.stream.value, Left).(closed := true)))
  }

  datatype Event =
    | Starts(session: nat)
    | Arrives(peer: nat, frame: Frame)
    | Takes(peer: nat)
    | Verifies(peer: nat, ok: bool)
    | SendsReady(peer: nat, ok: bool)
    | Confirms(peer: nat)
    | PeerCloses(peer: nat)     // the connection, or a signal that fails
    | AttemptCloses(peer: nat)  // the attempt's timer
    | Finalizes                 // the stream, for any reason it has
    | Closes                    // close() is called
    | Sweeps

  function Next(s: ClientState, event: Event): ClientState {
    match event
    case Starts(session) => StartAttempt(s, session)
    case Arrives(p, frame) =>
      if p < |s.peers| then s.(peers := s.peers[p := s.peers[p].(frames := s.peers[p].frames + [frame])]) else s
    case Takes(p) => if p < |s.peers| then TakeFrame(s, p) else s
    case Verifies(p, ok) => if p < |s.peers| then VerifySettles(s, p, ok) else s
    case SendsReady(p, ok) => if p < |s.peers| then ReadySettles(s, p, ok) else s
    case Confirms(p) => if p < |s.peers| then Confirm(s, p) else s
    case PeerCloses(p) => if p < |s.peers| then ClosePeer(s, p) else s
    case AttemptCloses(p) => if p < |s.peers| then CloseAttempt(s, p) else s
    case Finalizes => if s.stream.None? then s else s.(stream := Some(s.stream.value.(closed := true)))
    case Closes => s.(closed := true)
    case Sweeps => Sweep(s)
  }

  function Run(s: ClientState, events: seq<Event>): ClientState
    decreases |events|
  {
    if events == [] then s else Run(Next(s, events[0]), events[1..])
  }

  // ----- the object -----

  ghost predicate Reached(s: ClientState) {
    exists events: seq<Event> :: Run(NEW_CLIENT, events) == s
  }

  lemma {:induction false} RunSnoc(s: ClientState, events: seq<Event>, event: Event)
    ensures Run(s, events + [event]) == Next(Run(s, events), event)
    decreases |events|
  {
    if events == [] {
      assert [] + [event] == [event] && [event][1..] == [];
    } else {
      RunSnoc(Next(s, events[0]), events[1..], event);
      assert (events + [event])[1..] == events[1..] + [event];
    }
  }

  lemma StepKeeps(s: ClientState, event: Event)
    ensures Reached(s) ==> Reached(Next(s, event))
  {
    if Reached(s) {
      var events: seq<Event> :| Run(NEW_CLIENT, events) == s;
      RunSnoc(NEW_CLIENT, events, event);
      assert Run(NEW_CLIENT, events + [event]) == Next(s, event);
    }
  }

  class NativeWebRtcClient {
    var closed: bool
    var link: Option<nat>
    var attempts: set<nat>
    var peers: seq<Attempt>
    var stream: Option<Stream>
    ghost var trace: seq<Mark>

    ghost function State(): ClientState
      reads this
    {
      ClientState(closed, link, attempts, peers, stream, trace)
    }

    /** The state is one that a run reaches. */
    ghost predicate Valid()
      reads this
    {
      Reached(State())
    }

    constructor ()
      ensures State() == NEW_CLIENT && Valid()
    {
      assert Run(NEW_CLIENT, []) == NEW_CLIENT;
      closed, link, attempts, peers, stream, trace := false, None, {}, [], None, [];
    }

    method Start(session: nat)
      modifies this
      ensures State() == StartAttempt(old(State()), session)
      ensures old(Valid()) ==> Valid()
    {
      StepKeeps(State(), Starts(session));
      if closed || link.Some? || StreamClosed(stream) { return; }
      if exists p :: p in attempts && p < |peers| && peers[p].session == session { return; }
      attempts := attempts + {|peers|};
      peers := peers + [NewAttempt(session)];
    }

    method LoseActivePeer(p: nat)
      modifies this
      ensures State() == HandleActivePeerLost(old(State()), p)
    {
      if closed || link != Some(p) || stream.None? || stream.value.closed { return; }
      link := None;
      stream := Some(WithCall(stream.value, Lost(p)));
    }

    method Close(p: nat)
      requires p < |peers|
      modifies this
      ensures State() == ClosePeer(old(State()), p)
      ensures old(Valid()) ==> Valid()
    {
      StepKeeps(State(), PeerCloses(p));
      if peers[p].closed { return; }
      peers := peers[p := peers[p].(closed := true)];
      attempts := attempts - {p};
      if peers[p].authenticated { LoseActivePeer(p); }
    }

    method Cancel(p: nat)
      requires p < |peers|
      modifies this
      ensures State() == CloseAttempt(old(State()), p)
      ensures old(Valid()) ==> Valid()
    {
      StepKeeps(State(), AttemptCloses(p));
      attempts := attempts - {p};
      Close(p);
    }

    /** Closes the attempts there are, in the order of their start, except one. */
    method CancelOthers(except: nat)
      requires forall p :: p in attempts ==> p < |peers|
      modifies this
      ensures State() == CloseOthers(old(State()), except, |old(peers)|)
    {
      var others := attempts;
      var n := 0;
      while n < |peers|
        invariant n <= |peers| == |old(peers)|
        invariant State() == CloseOthers(old(State()), except, n)
        decreases |old(peers)| - n
      {
        if n in others && n != except { Cancel(n); }
        n := n + 1;
      }
    }

    method FinishVerify(p: nat, ok: bool)
      requires p < |peers|
      modifies this
      ensures State() == VerifySettles(old(State()), p, ok)
      ensures old(Valid()) ==> Valid()
    {
      StepKeeps(State(), Verifies(p, ok));
      if peers[p].stage != Verifying { return; }
      if !ok || closed || (link.Some? && link != Some(p)) {
        peers := peers[p := peers[p].(stage := Idle)];
        Close(p);
        return;
      }
      link := Some(p);
      peers := peers[p := peers[p].(stage := SendingReady)];
      trace := trace + [ResponseVerified(p)];
    }

    method FinishReady(p: nat, ok: bool)
      requires p < |peers| && forall q :: q in attempts ==> q < |peers|
      modifies this
      ensures State() == ReadySettles(old(State()), p, ok)
      ensures old(Valid()) ==> Valid()
    {
      StepKeeps(State(), SendsReady(p, ok));
      if peers[p].stage != SendingReady { return; }
      if !ok {
        peers := peers[p := peers[p].(stage := Idle)];
        Close(p);
        return;
      }
      peers := peers[p := peers[p].(stage := Confirming, bound := true)];
      stream := Some(BindStream(stream, p));
      CancelOthers(p);
    }

    method FinishClaim(p: nat)
      requires p < |peers|
      modifies this
      ensures State() == Confirm(old(State()), p)
      ensures old(Valid()) ==> Valid()
    {
      StepKeeps(State(), Confirms(p));
      if peers[p].stage == Confirming {
        peers := peers[p := peers[p].(stage := Idle, authenticated := true)];
      }
    }

    method ReceiveFrame(p: nat, frame: Frame)
      requires p < |peers|
      modifies this
      ensures State() == OnFrame(old(State()), p, frame)
    {
      if frame.Undecodable? {
        Close(p);
      } else if frame.Response? {
        if !peers[p].authenticated {
          peers := peers[p := peers[p].(stage := Verifying)];
        }
      } else if !peers[p].authenticated || link != Some(p) || stream.None? {
        Close(p);
      } else if frame.Data? || frame.Control? {
        stream := Some(WithCall(stream.value, Delivered(p, frame)));
        trace := trace + [HandedFrame(p)];
      }
    }

    method ProcessFrame(p: nat)
      requires p < |peers|
      modifies this
      ensures State() == TakeFrame(old(State()), p)
      ensures old(Valid()) ==> Valid()
    {
      StepKeeps(State(), Takes(p));
      if peers[p].stage != Idle || peers[p].frames == [] { return; }
      var frame := peers[p].frames[0];
      peers := peers[p := peers[p].(frames := peers[p].frames[1..])];
      ReceiveFrame(p, frame);
    }

    /** A frame arrives on the data channel of an attempt. */
    method Arrive(p: nat, frame: Frame)
      requires p < |peers|
      modifies this
      ensures State() == Next(old(State()), Arrives(p, frame))
      ensures old(Valid()) ==> Valid()
    {
      StepKeeps(State(), Arrives(p, frame));
      peers := peers[p := peers[p].(frames := peers[p].frames + [frame])];
    }

    /** The stream is finalized. */
    method FinalizeStream()
      modifies this
      ensures State() == Next(old(State()), Finalizes)
      ensures old(Valid()) ==> Valid()
    {
      StepKeeps(State(), Finalizes);
      if stream.Some? {
        stream := Some(stream.value.(closed := true));
      }
    }

    /** close(), up to its farewell. */
    method BeginClose()
      modifies this
      ensures State() == Next(old(State()), Closes)
      ensures old(Valid()) ==> Valid()
    {
      StepKeeps(State(), Closes);
      closed := true;
    }

    method FinishClose()
      requires forall p :: p in attempts ==> p < |peers|
      modifies this
      ensures State() == Sweep(old(State()))
      ensures old(Valid()) ==> Valid()
    {
      StepKeeps(State(), Sweeps);
      if !closed { return; }
      CancelOthers(|peers|);
      link := None;
      if stream.Some? && !stream.value.closed {
        stream := Some(WithCall(stream.value, Left).(closed := true));
      }
    }
  }
}
