/**
 * Every run of the client: one attempt for each signaling session, one claimed peer, one
 * stream, and no frame for it except from the verified peer that it is bound to.
 */
module ClientRuns {
  import opened Bytes
  import opened StreamLinks
  import opened Client

  // ----- the trace -----

  predicate Follows(front: seq<Mark>, mark: Mark) {
    mark.HandedFrame? ==> ResponseVerified(mark.peer) in front
  }

  /** A frame is handed on only after the response of its peer was verified. */
  predicate InOrder(trace: seq<Mark>) {
    trace == [] ||
    (InOrder(trace[..|trace| - 1]) && Follows(trace[..|trace| - 1], trace[|trace| - 1]))
  }

  lemma InOrderSnoc(trace: seq<Mark>, mark: Mark)
    requires InOrder(trace) && Follows(trace, mark)
    ensures InOrder(trace + [mark])
  {
    var all := trace + [mark];
    assert all[..|all| - 1] == trace && all[|all| - 1] == mark;
  }

  lemma {:induction false} FrameFollowsResponse(trace: seq<Mark>, k: nat) returns (i: nat)
    requires InOrder(trace) && k < |trace| && trace[k].HandedFrame?
    ensures i < k && trace[i] == ResponseVerified(trace[k].peer)
  {
    var front := trace[..|trace| - 1];
    if k < |trace| - 1 {
      assert front[k] == trace[k];
      i := FrameFollowsResponse(front, k);
    } else {
      i :| 0 <= i < |front| && front[i] == ResponseVerified(trace[k].peer);
    }
  }

  // ----- the invariant -----

  /** The attempts are the peers that are not closed, one for each session. */
  ghost predicate OnePerSession(attempts: set<nat>, peers: seq<Attempt>) {
    && (forall p: nat :: p in attempts <==> p < |peers| && !peers[p].closed)
    && (forall p, q :: p in attempts && q in attempts && p < |peers| && q < |peers| && peers[p].session == peers[q].session
          ==> p == q)
  }

  /** How far an attempt is agrees with what is recorded of it. */
  predicate StageOk(peer: Attempt) {
    match peer.stage
    case Idle => peer.bound == peer.authenticated
    case Verifying => !peer.bound && !peer.authenticated
    case SendingReady => !peer.bound && !peer.authenticated
    case Confirming => peer.bound && !peer.authenticated
  }

  ghost predicate StagesOk(peers: seq<Attempt>) {
    forall p :: 0 <= p < |peers| ==> StageOk(peers[p])
  }

  /** Who sends AUTH_READY is the claimed peer, and alone in that. */
  ghost predicate Claimed(peers: seq<Attempt>, link: Option<nat>, closed: bool) {
    && (link.Some? ==> link.value < |peers|)
    && (forall p :: 0 <= p < |peers| && peers[p].stage == SendingReady ==> link == Some(p) || (closed && link.None?))
    && (forall p, q :: 0 <= p < |peers| && 0 <= q < |peers| && peers[p].stage == SendingReady && peers[q].stage == SendingReady
          ==> p == q)
  }

  ghost predicate Verified(trace: seq<Mark>, peers: seq<Attempt>) {
    && InOrder(trace)
    && (forall p :: 0 <= p < |peers| && (peers[p].bound || peers[p].stage == SendingReady) ==> ResponseVerified(p) in trace)
  }

  function CallsOf(stream: Option<Stream>): seq<Call> {
    if stream.None? then [] else stream.value.calls
  }

  /** Only peers recorded as bound were ever bound to the stream. */
  ghost predicate BindersOk(calls: seq<Call>, peers: seq<Attempt>) {
    forall p :: p in Binders(calls) ==> p < |peers| && peers[p].bound
  }

  /** The stream is bound to the claimed peer and to nobody else; after close() perhaps to nobody that is claimed. */
  ghost predicate BoundOk(calls: seq<Call>, peers: seq<Attempt>, link: Option<nat>, closed: bool) {
    && (Bound(calls).Some? ==> link == Bound(calls) || (closed && link.None?))
    && (link.Some? && link.value < |peers| && peers[link.value].bound ==> Bound(calls) == link)
    && (forall p :: 0 <= p < |peers| && peers[p].stage == SendingReady ==> Bound(calls).None?)
  }

  ghost predicate StreamOk(s: ClientState) {
    && (s.stream.Some? ==> s.stream.value.calls != [])
    && Disciplined(CallsOf(s.stream))
    && BindersOk(CallsOf(s.stream), s.peers)
    && BoundOk(CallsOf(s.stream), s.peers, s.link, s.closed)
  }

  ghost predicate Inv(s: ClientState) {
    && OnePerSession(s.attempts, s.peers)
    && StagesOk(s.peers)
    && Claimed(s.peers, s.link, s.closed)
    && Verified(s.trace, s.peers)
    && StreamOk(s)
  }

  // ----- a peer changes -----

  /** Bookkeeping of one attempt that leaves its standing alone. */
  predicate SameStanding(a: Attempt, b: Attempt) {
    a.session == b.session && a.closed == b.closed && a.authenticated == b.authenticated && a.bound == b.bound
  }

  lemma SetPeerKeeps(s: ClientState, p: nat, peer: Attempt)
    requires Inv(s) && p < |s.peers| && SameStanding(s.peers[p], peer) && StageOk(peer)
    requires peer.stage == s.peers[p].stage || peer.stage != SendingReady
    ensures Inv(s.(peers := s.peers[p := peer]))
  {
    var more := s.peers[p := peer];
    assert OnePerSession(s.attempts, more);
    assert Verified(s.trace, more);
  }

  lemma StartKeeps(s: ClientState, session: nat)
    requires Inv(s)
    ensures Inv(StartAttempt(s, session))
  {
    if s.closed || s.link.Some? || StreamClosed(s.stream) {
    } else if exists p :: p in s.attempts && p < |s.peers| && s.peers[p].session == session {
    } else {
      var more := s.peers + [NewAttempt(session)];
      assert OnePerSession(s.attempts + {|s.peers|}, more);
      assert StagesOk(more);
      assert Verified(s.trace, more);
    }
  }

  // ----- losing a peer -----

  lemma ClosedPeerKeeps(s: ClientState, p: nat)
    requires Inv(s) && p < |s.peers|
    ensures Inv(s.(peers := s.peers[p := s.peers[p].(closed := true)], attempts := s.attempts - {p}))
  {
    var more := s.peers[p := s.peers[p].(closed := true)];
    assert OnePerSession(s.attempts - {p}, more);
    assert StagesOk(more);
    assert Verified(s.trace, more);
  }

  lemma LostKeeps(s: ClientState, p: nat)
    requires Inv(s) && p < |s.peers| && s.peers[p].authenticated && s.peers[p].stage == Idle
    ensures Inv(HandleActivePeerLost(s, p))
  {
    if s.closed || s.link != Some(p) || s.stream.None? || s.stream.value.closed {
    } else {
      Snoc(s.stream.value.calls, Lost(p));
      assert StageOk(s.peers[p]);
    }
  }

  lemma ClosePeerKeeps(s: ClientState, p: nat)
    requires Inv(s) && p < |s.peers|
    ensures Inv(ClosePeer(s, p))
  {
    if !s.peers[p].closed {
      var t := s.(peers := s.peers[p := s.peers[p].(closed := true)], attempts := s.attempts - {p});
      ClosedPeerKeeps(s, p);
      assert StageOk(s.peers[p]);
      if s.peers[p].authenticated {
        LostKeeps(t, p);
      }
    }
  }

  lemma CloseAttemptKeeps(s: ClientState, p: nat)
    requires Inv(s) && p < |s.peers|
    ensures Inv(CloseAttempt(s, p)) && CloseAttempt(s, p).closed == s.closed
    ensures CloseAttempt(s, p).attempts == s.attempts - {p}
  {
    if s.peers[p].closed {
      assert s.attempts - {p} == s.attempts;
    } else {
      var t := s.(attempts := s.attempts - {p});
      assert t.attempts - {p} == s.attempts - {p};
      assert ClosePeer(t, p) == ClosePeer(s, p);
      ClosePeerKeeps(s, p);
    }
  }

  /** The attempts that are left when the first n are closed, except one. */
  function Remaining(attempts: set<nat>, except: nat, n: nat): set<nat> {
    set p | p in attempts && (p >= n || p == except)
  }

  lemma RemainingStep(attempts: set<nat>, except: nat, n: nat)
    requires n > 0
    ensures Remaining(attempts, except, n) ==
            if n - 1 in attempts && n - 1 != except then Remaining(attempts, except, n - 1) - {n - 1}
            else Remaining(attempts, except, n - 1)
  {
  }

  lemma {:induction false} CloseOthersKeeps(s: ClientState, except: nat, n: nat)
    requires Inv(s) && n <= |s.peers|
    ensures Inv(CloseOthers(s, except, n)) && CloseOthers(s, except, n).closed == s.closed
    ensures CloseOthers(s, except, n).attempts == Remaining(s.attempts, except, n)
    decreases n
  {
    if n == 0 {
      assert Remaining(s.attempts, except, 0) == s.attempts;
    } else {
      CloseOthersKeeps(s, except, n - 1);
      var t := CloseOthers(s, except, n - 1);
      RemainingStep(s.attempts, except, n);
      if n - 1 in s.attempts && n - 1 != except {
        CloseAttemptKeeps(t, n - 1);
        assert CloseOthers(s, except, n) == CloseAttempt(t, n - 1);
      } else {
        assert CloseOthers(s, except, n) == t;
      }
    }
  }

  // ----- claiming a peer -----

  lemma ClaimKeeps(s: ClientState, p: nat)
    requires Inv(s) && p < |s.peers| && s.peers[p].stage == Verifying && !s.closed
    requires s.link.None? || s.link == Some(p)
    ensures Inv(VerifySettles(s, p, true))
  {
    var more := s.peers[p := s.peers[p].(stage := SendingReady)];
    assert StageOk(s.peers[p]);
    assert StagesOk(more);
    InOrderSnoc(s.trace, ResponseVerified(p));
    ClaimedMark(s.trace, s.peers, p, more);
    BoundIsBinder(CallsOf(s.stream));
    assert OnePerSession(s.attempts, more);
    assert Claimed(more, Some(p), s.closed);
    assert BoundOk(CallsOf(s.stream), more, Some(p), s.closed);
  }

  lemma ClaimedMark(trace: seq<Mark>, peers: seq<Attempt>, p: nat, more: seq<Attempt>)
    requires Verified(trace, peers) && p < |peers| && more == peers[p := peers[p].(stage := SendingReady)]
    ensures Verified(trace + [ResponseVerified(p)], more)
  {
    InOrderSnoc(trace, ResponseVerified(p));
    var all := trace + [ResponseVerified(p)];
    assert all[|trace|] == ResponseVerified(p);
    assert forall m :: m in trace ==> m in all;
  }

  lemma VerifyKeeps(s: ClientState, p: nat, ok: bool)
    requires Inv(s) && p < |s.peers|
    ensures Inv(VerifySettles(s, p, ok))
  {
    if s.peers[p].stage == Verifying {
      assert StageOk(s.peers[p]);
      var idle := s.peers[p].(stage := Idle);
      if !ok || s.closed || (s.link.Some? && s.link != Some(p)) {
        SetPeerKeeps(s, p, idle);
        ClosePeerKeeps(s.(peers := s.peers[p := idle]), p);
      } else {
        ClaimKeeps(s, p);
      }
    }
  }

  lemma BindKeeps(s: ClientState, p: nat, more: seq<Attempt>)
    requires Inv(s) && p < |s.peers| && s.peers[p].stage == SendingReady
    requires more == s.peers[p := s.peers[p].(stage := Confirming, bound := true)]
    ensures Inv(s.(peers := more, stream := Some(BindStream(s.stream, p))))
  {
    assert StageOk(s.peers[p]);
    assert StagesOk(more);
    assert OnePerSession(s.attempts, more);
    assert Claimed(more, s.link, s.closed);
    assert Verified(s.trace, more);
    BindStreamKeeps(s, p, more);
  }

  lemma BindStreamKeeps(s: ClientState, p: nat, more: seq<Attempt>)
    requires Inv(s) && p < |s.peers| && s.peers[p].stage == SendingReady && !s.peers[p].bound
    requires more == s.peers[p := s.peers[p].(stage := Confirming, bound := true)]
    ensures StreamOk(s.(peers := more, stream := Some(BindStream(s.stream, p))))
  {
    var call := if s.stream.None? then Opened(p) else Rebound(p);
    var calls := CallsOf(s.stream);
    Snoc(calls, call);
    assert BindStream(s.stream, p).calls == calls + [call];
    assert p !in Binders(calls);
    assert forall q :: q in Binders(calls + [call]) ==> q < |more| && more[q].bound;
  }

  lemma ReadyKeeps(s: ClientState, p: nat, ok: bool)
    requires Inv(s) && p < |s.peers|
    ensures Inv(ReadySettles(s, p, ok))
  {
    if s.peers[p].stage == SendingReady {
      assert StageOk(s.peers[p]);
      if ok {
        var more := s.peers[p := s.peers[p].(stage := Confirming, bound := true)];
        BindKeeps(s, p, more);
        CloseOthersKeeps(s.(peers := more, stream := Some(BindStream(s.stream, p))), p, |s.peers|);
      } else {
        var idle := s.peers[p].(stage := Idle);
        SetPeerKeeps(s, p, idle);
        ClosePeerKeeps(s.(peers := s.peers[p := idle]), p);
      }
    }
  }

  lemma ConfirmKeeps(s: ClientState, p: nat)
    requires Inv(s) && p < |s.peers|
    ensures Inv(Confirm(s, p))
  {
    if s.peers[p].stage == Confirming {
      assert StageOk(s.peers[p]);
      var more := s.peers[p := s.peers[p].(stage := Idle, authenticated := true)];
      assert StagesOk(more);
      assert OnePerSession(s.attempts, more);
      assert Verified(s.trace, more);
    }
  }

  // ----- frames -----

  lemma DeliverKeeps(s: ClientState, p: nat, frame: Frame)
    requires Inv(s) && p < |s.peers| && s.peers[p].authenticated && s.link == Some(p) && s.stream.Some?
    requires s.peers[p].stage == Idle
    ensures Inv(s.(stream := Some(WithCall(s.stream.value, Delivered(p, frame))), trace := s.trace + [HandedFrame(p)]))
  {
    assert StageOk(s.peers[p]);
    Snoc(s.stream.value.calls, Delivered(p, frame));
    InOrderSnoc(s.trace, HandedFrame(p));
    assert forall m :: m in s.trace ==> m in s.trace + [HandedFrame(p)];
  }

  lemma OnFrameKeeps(s: ClientState, p: nat, frame: Frame)
    requires Inv(s) && p < |s.peers| && s.peers[p].stage == Idle
    ensures Inv(OnFrame(s, p, frame))
  {
    var peer := s.peers[p];
    assert StageOk(peer);
    if frame.Undecodable? {
      ClosePeerKeeps(s, p);
    } else if frame.Response? {
      if !peer.authenticated {
        SetPeerKeeps(s, p, peer.(stage := Verifying));
      }
    } else if !peer.authenticated || s.link != Some(p) || s.stream.None? {
      ClosePeerKeeps(s, p);
    } else if frame.Data? || frame.Control? {
      DeliverKeeps(s, p, frame);
    }
  }

  lemma TakeFrameKeeps(s: ClientState, p: nat)
    requires Inv(s) && p < |s.peers|
    ensures Inv(TakeFrame(s, p))
  {
    var peer := s.peers[p];
    assert StageOk(peer);
    if peer.stage == Idle && peer.frames != [] {
      var rest := peer.(frames := peer.frames[1..]);
      SetPeerKeeps(s, p, rest);
      OnFrameKeeps(s.(peers := s.peers[p := rest]), p, peer.frames[0]);
    }
  }

  // ----- closing -----

  lemma ClosesKeeps(s: ClientState)
    requires Inv(s)
    ensures Inv(s.(closed := true))
  {
  }

  lemma LeaveKeeps(s: ClientState, stream: Option<Stream>)
    requires Inv(s) && s.closed && s.attempts == {}
    requires stream == if s.stream.None? || s.stream.value.closed then s.stream
                       else Some(WithCall(s.stream.value, Left).(closed := true))
    ensures Inv(s.(link := None, stream := stream))
  {
    if s.stream.Some? {
      Snoc(s.stream.value.calls, Left);
    }
  }

  lemma SweepKeeps(s: ClientState)
    requires Inv(s)
    ensures Inv(Sweep(s))
  {
    if s.closed {
      CloseOthersKeeps(s, |s.peers|, |s.peers|);
      var t := CloseOthers(s, |s.peers|, |s.peers|);
      assert Remaining(s.attempts, |s.peers|, |s.peers|) == {};
      LeaveKeeps(t, Sweep(s).stream);
    }
  }

  lemma NextKeeps(s: ClientState, event: Event)
    requires Inv(s)
    ensures Inv(Next(s, event))
  {
    match event {
      case Starts(session) => StartKeeps(s, session);
      case Arrives(p, frame) =>
        if p < |s.peers| {
          assert StageOk(s.peers[p]);
          SetPeerKeeps(s, p, s.peers[p].(frames := s.peers[p].frames + [frame]));
        }
      case Takes(p) => if p < |s.peers| { TakeFrameKeeps(s, p); }
      case Verifies(p, ok) => if p < |s.peers| { VerifyKeeps(s, p, ok); }
      case SendsReady(p, ok) => if p < |s.peers| { ReadyKeeps(s, p, ok); }
      case Confirms(p) => if p < |s.peers| { ConfirmKeeps(s, p); }
      case PeerCloses(p) => if p < |s.peers| { ClosePeerKeeps(s, p); }
      case AttemptCloses(p) => if p < |s.peers| { CloseAttemptKeeps(s, p); }
      case Finalizes => FinalizeKeeps(s);
      case Closes => ClosesKeeps(s);
      case Sweeps => SweepKeeps(s);
    }
  }

  lemma FinalizeKeeps(s: ClientState)
    requires Inv(s)
    ensures Inv(Next(s, Finalizes))
  {
  }

  lemma {:induction false} RunKeeps(s: ClientState, events: seq<Event>)
    requires Inv(s)
    ensures Inv(Run(s, events))
    decreases |events|
  {
    if events == [] {
    } else {
      NextKeeps(s, events[0]);
      RunKeeps(Next(s, events[0]), events[1..]);
    }
  }

  // ----- what holds in every run -----

  lemma Reaches(events: seq<Event>)
    ensures Inv(Run(NEW_CLIENT, events))
  {
    RunKeeps(NEW_CLIENT, events);
  }

  /** A signaling session never has two attempts whose peers are open. */
  lemma OneAttemptPerSession(events: seq<Event>, p: nat, q: nat)
    requires var s := Run(NEW_CLIENT, events);
             && p < |s.peers| && q < |s.peers| && !s.peers[p].closed && !s.peers[q].closed
             && s.peers[p].session == s.peers[q].session
    ensures p == q
  {
    Reaches(events);
  }

  /** Once AUTH_READY is sent, every other attempt is closed. */
  lemma ClaimClosesOthers(events: seq<Event>, p: nat, q: nat)
    requires var s := Run(NEW_CLIENT, events); p < |s.peers| && q < |s.peers| && s.peers[p].stage == SendingReady
    ensures var t := ReadySettles(Run(NEW_CLIENT, events), p, true);
            q != p ==> t.peers[q].closed && q !in t.attempts
  {
    Reaches(events);
    var s := Run(NEW_CLIENT, events);
    ReadyKeeps(s, p, true);
    var more := s.peers[p := s.peers[p].(stage := Confirming, bound := true)];
    BindKeeps(s, p, more);
    CloseOthersKeeps(s.(peers := more, stream := Some(BindStream(s.stream, p))), p, |s.peers|);
    assert q != p ==> q !in Remaining(s.attempts, p, |s.peers|);
  }

  /**
   * Whatever the stream is handed comes from the one peer that it is bound to at that moment,
   * and the response of that peer was verified.
   */
  lemma FramesComeFromTheClaimed(events: seq<Event>, k: nat)
    requires var calls := CallsOf(Run(NEW_CLIENT, events).stream); k < |calls| && calls[k].Delivered?
    ensures var s := Run(NEW_CLIENT, events);
            var calls := CallsOf(s.stream);
            && Disciplined(calls)
            && Bound(calls[..k]) == Some(calls[k].peer)
            && ResponseVerified(calls[k].peer) in s.trace
  {
    Reaches(events);
    var s := Run(NEW_CLIENT, events);
    DeliveredByBound(CallsOf(s.stream), k);
  }

  /** Before a frame of a peer is handed on, its response was verified. */
  lemma VerificationComesFirst(events: seq<Event>, k: nat) returns (i: nat)
    requires k < |Run(NEW_CLIENT, events).trace| && Run(NEW_CLIENT, events).trace[k].HandedFrame?
    ensures var trace := Run(NEW_CLIENT, events).trace;
            i < k && trace[i] == ResponseVerified(trace[k].peer)
  {
    Reaches(events);
    i := FrameFollowsResponse(Run(NEW_CLIENT, events).trace, k);
  }

  // ----- one stream -----

  lemma ClosePeerExtends(s: ClientState, p: nat)
    requires p < |s.peers|
    ensures CallsOf(s.stream) <= CallsOf(ClosePeer(s, p).stream)
    ensures s.stream.Some? ==> ClosePeer(s, p).stream.Some?
    ensures CallsOf(s.stream) <= CallsOf(CloseAttempt(s, p).stream)
    ensures s.stream.Some? ==> CloseAttempt(s, p).stream.Some?
  {
  }

  lemma {:induction false} CloseOthersExtends(s: ClientState, except: nat, n: nat)
    requires n <= |s.peers|
    ensures CallsOf(s.stream) <= CallsOf(CloseOthers(s, except, n).stream)
    ensures s.stream.Some? ==> CloseOthers(s, except, n).stream.Some?
    decreases n
  {
    if n > 0 {
      CloseOthersExtends(s, except, n - 1);
      ClosePeerExtends(CloseOthers(s, except, n - 1), n - 1);
    }
  }

  lemma OnFrameExtends(s: ClientState, p: nat, frame: Frame)
    requires p < |s.peers|
    ensures CallsOf(s.stream) <= CallsOf(OnFrame(s, p, frame).stream)
    ensures s.stream.Some? ==> OnFrame(s, p, frame).stream.Some?
  {
    ClosePeerExtends(s, p);
  }

  lemma NextExtends(s: ClientState, event: Event)
    ensures CallsOf(s.stream) <= CallsOf(Next(s, event).stream)
    ensures s.stream.Some? ==> Next(s, event).stream.Some?
  {
    match event {
      case Starts(_) =>
      case Arrives(_, _) =>
      case Takes(p) =>
        if p < |s.peers| && s.peers[p].stage == Idle && s.peers[p].frames != [] {
          OnFrameExtends(s.(peers := s.peers[p := s.peers[p].(frames := s.peers[p].frames[1..])]), p, s.peers[p].frames[0]);
        }
      case Verifies(p, ok) => if p < |s.peers| { ClosePeerExtends(s.(peers := s.peers[p := s.peers[p].(stage := Idle)]), p); }
      case SendsReady(p, ok) => if p < |s.peers| { ReadyExtends(s, p, ok); }
      case Confirms(_) =>
      case PeerCloses(p) => if p < |s.peers| { ClosePeerExtends(s, p); }
      case AttemptCloses(p) => if p < |s.peers| { ClosePeerExtends(s, p); }
      case Finalizes =>
      case Closes =>
      case Sweeps => CloseOthersExtends(s, |s.peers|, |s.peers|);
    }
  }

  lemma ReadyExtends(s: ClientState, p: nat, ok: bool)
    requires p < |s.peers|
    ensures CallsOf(s.stream) <= CallsOf(ReadySettles(s, p, ok).stream)
    ensures s.stream.Some? ==> ReadySettles(s, p, ok).stream.Some?
  {
    if s.peers[p].stage == SendingReady {
      if ok {
        var more := s.peers[p := s.peers[p].(stage := Confirming, bound := true)];
        CloseOthersExtends(s.(peers := more, stream := Some(BindStream(s.stream, p))), p, |s.peers|);
      } else {
        ClosePeerExtends(s.(peers := s.peers[p := s.peers[p].(stage := Idle)]), p);
      }
    }
  }

  /** The stream is created once: whatever happens later happens to that stream. */
  lemma {:induction false} StreamIsNeverReplaced(s: ClientState, events: seq<Event>)
    ensures CallsOf(s.stream) <= CallsOf(Run(s, events).stream)
    ensures s.stream.Some? ==> Run(s, events).stream.Some?
    decreases |events|
  {
    if events == [] {
    } else {
      NextExtends(s, events[0]);
      StreamIsNeverReplaced(Next(s, events[0]), events[1..]);
    }
  }
}
