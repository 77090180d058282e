/**
 * When the client keeps a claimed peer that is already gone: exactly which steps do it, that
 * it stays so until the connection or its stream is closed, and a run that reaches it.
 */
module ClientLinks {
  import opened Bytes
  import opened StreamLinks
  import opened Client
  import opened ClientRuns

  /** A claimed peer that is open is on its way to being confirmed, or is. */
  ghost predicate OnItsWay(s: ClientState) {
    s.link.Some? && s.link.value < |s.peers| && !s.peers[s.link.value].closed ==>
      var peer := s.peers[s.link.value];
      peer.stage == SendingReady || peer.stage == Confirming || (peer.stage == Idle && peer.authenticated)
  }

  /** The connection is over, or whoever is claimed is open. */
  ghost predicate Live(s: ClientState) {
    s.closed || StreamClosed(s.stream) || (s.link.Some? && s.link.value < |s.peers| ==> !s.peers[s.link.value].closed)
  }

  /** The claimed peer, before it is confirmed. */
  predicate Unconfirmed(s: ClientState, p: nat)
    requires p < |s.peers|
  {
    s.link == Some(p) && !s.peers[p].closed && !s.peers[p].authenticated
  }

  /** A closed peer is claimed, or the claimed one is closed before it is confirmed. */
  predicate Strands(s: ClientState, event: Event) {
    match event
    case Verifies(p, ok) => ok && p < |s.peers| && s.peers[p].stage == Verifying && s.peers[p].closed && s.link.None?
    case SendsReady(p, ok) => !ok && p < |s.peers| && s.peers[p].stage == SendingReady && Unconfirmed(s, p)
    case PeerCloses(p) => p < |s.peers| && Unconfirmed(s, p)
    case AttemptCloses(p) => p < |s.peers| && Unconfirmed(s, p)
    case _ => false
  }

  // ----- closing -----

  lemma ClosePeerLive(s: ClientState, p: nat)
    requires Inv(s) && OnItsWay(s) && p < |s.peers| && !s.closed && !StreamClosed(s.stream) && Live(s)
    ensures OnItsWay(ClosePeer(s, p))
    ensures Live(ClosePeer(s, p)) <==> !Unconfirmed(s, p)
    ensures ClosePeer(s, p).closed == s.closed && StreamClosed(ClosePeer(s, p).stream) == StreamClosed(s.stream)
  {
    assert StageOk(s.peers[p]);
    if !s.peers[p].closed && s.link == Some(p) && s.peers[p].authenticated {
      assert Bound(CallsOf(s.stream)) == s.link;
      assert s.stream.Some?;
    }
  }

  lemma CloseAttemptIs(s: ClientState, p: nat)
    requires Inv(s) && p < |s.peers|
    ensures CloseAttempt(s, p) == ClosePeer(s, p)
  {
    if s.peers[p].closed {
      assert s.attempts - {p} == s.attempts;
    } else {
      assert s.attempts - {p} - {p} == s.attempts - {p};
    }
  }

  /** Closing others than the claimed peer leaves it as it is. */
  lemma {:induction false} CloseOthersOfLink(s: ClientState, p: nat, n: nat)
    requires Inv(s) && n <= |s.peers| && s.link == Some(p)
    ensures var t := CloseOthers(s, p, n);
            t.link == s.link && t.closed == s.closed && t.stream == s.stream && t.peers[p] == s.peers[p]
    decreases n
  {
    if n > 0 {
      CloseOthersOfLink(s, p, n - 1);
    }
  }

  // ----- one step -----

  lemma TakeFrameLive(s: ClientState, p: nat)
    requires Inv(s) && OnItsWay(s) && p < |s.peers| && !s.closed && !StreamClosed(s.stream) && Live(s)
    ensures OnItsWay(TakeFrame(s, p)) && Live(TakeFrame(s, p))
  {
    var peer := s.peers[p];
    assert StageOk(peer);
    if peer.stage == Idle && peer.frames != [] {
      var rest := peer.(frames := peer.frames[1..]);
      SetPeerKeeps(s, p, rest);
      OnFrameLive(s.(peers := s.peers[p := rest]), p, peer.frames[0]);
    }
  }

  lemma OnFrameLive(s: ClientState, p: nat, frame: Frame)
    requires Inv(s) && OnItsWay(s) && p < |s.peers| && !s.closed && !StreamClosed(s.stream) && Live(s)
    requires s.peers[p].stage == Idle
    ensures OnItsWay(OnFrame(s, p, frame)) && Live(OnFrame(s, p, frame))
  {
    ClosePeerLive(s, p);
  }

  lemma VerifyLive(s: ClientState, p: nat, ok: bool)
    requires Inv(s) && OnItsWay(s) && p < |s.peers| && !s.closed && !StreamClosed(s.stream) && Live(s)
    ensures OnItsWay(VerifySettles(s, p, ok))
    ensures Live(VerifySettles(s, p, ok)) <==> !Strands(s, Verifies(p, ok))
  {
    if s.peers[p].stage == Verifying {
      assert StageOk(s.peers[p]);
      if !ok || (s.link.Some? && s.link != Some(p)) {
        var idle := s.peers[p].(stage := Idle);
        SetPeerKeeps(s, p, idle);
        ClosePeerLive(s.(peers := s.peers[p := idle]), p);
      }
    }
  }

  lemma ReadyLive(s: ClientState, p: nat, ok: bool)
    requires Inv(s) && OnItsWay(s) && p < |s.peers| && !s.closed && !StreamClosed(s.stream) && Live(s)
    ensures OnItsWay(ReadySettles(s, p, ok))
    ensures Live(ReadySettles(s, p, ok)) <==> !Strands(s, SendsReady(p, ok))
  {
    if s.peers[p].stage == SendingReady {
      assert StageOk(s.peers[p]);
      if ok {
        var more := s.peers[p := s.peers[p].(stage := Confirming, bound := true)];
        BindKeeps(s, p, more);
        CloseOthersOfLink(s.(peers := more, stream := Some(BindStream(s.stream, p))), p, |s.peers|);
      } else {
        UnreadyLive(s, p);
      }
    }
  }

  lemma UnreadyLive(s: ClientState, p: nat)
    requires Inv(s) && OnItsWay(s) && p < |s.peers| && !s.closed && !StreamClosed(s.stream) && Live(s)
    requires s.peers[p].stage == SendingReady && !s.peers[p].authenticated
    ensures OnItsWay(ReadySettles(s, p, false))
    ensures Live(ReadySettles(s, p, false)) <==> !Unconfirmed(s, p)
  {
  }

  /**
   * The client comes to keep a claimed peer that is gone in exactly these ways: it claims a
   * peer that was closed while its response was verified, or the claimed peer is closed, or
   * its AUTH_READY fails, before the claim is complete.
   */
  lemma StrandedExactly(s: ClientState, event: Event)
    requires Inv(s) && OnItsWay(s) && !s.closed && !StreamClosed(s.stream) && Live(s)
    ensures OnItsWay(Next(s, event))
    ensures Live(Next(s, event)) <==> !Strands(s, event)
  {
    match event {
      case Starts(session) =>
      case Arrives(p, frame) =>
      case Takes(p) => if p < |s.peers| { TakeFrameLive(s, p); }
      case Verifies(p, ok) => if p < |s.peers| { VerifyLive(s, p, ok); }
      case SendsReady(p, ok) => if p < |s.peers| { ReadyLive(s, p, ok); }
      case Confirms(p) => if p < |s.peers| { assert StageOk(s.peers[p]); }
      case PeerCloses(p) => if p < |s.peers| { ClosePeerLive(s, p); }
      case AttemptCloses(p) => if p < |s.peers| { ClosePeerLive(s, p); CloseAttemptIs(s, p); }
      case Finalizes =>
      case Closes =>
      case Sweeps =>
    }
  }

  // ----- for good -----

  /** A claimed peer that is gone stays claimed, and no attempt begins, until the connection or its stream is closed. */
  lemma StrandedForGood(s: ClientState, event: Event)
    requires Inv(s) && !Live(s)
    ensures var t := Next(s, event);
            !t.closed && !StreamClosed(t.stream) ==> !Live(t) && t.link == s.link && |t.peers| == |s.peers|
  {
    var p := s.link.value;
    match event {
      case Starts(session) =>
      case Arrives(q, frame) =>
      case Takes(q) =>
      case Verifies(q, ok) =>
      case SendsReady(q, ok) =>
        if q < |s.peers| && s.peers[q].stage == SendingReady && ok {
          var more := s.peers[q := s.peers[q].(stage := Confirming, bound := true)];
          BindKeeps(s, q, more);
          CloseOthersOfLink(s.(peers := more, stream := Some(BindStream(s.stream, q))), q, |s.peers|);
        }
      case Confirms(q) =>
      case PeerCloses(q) =>
      case AttemptCloses(q) =>
      case Finalizes =>
      case Closes =>
      case Sweeps =>
    }
  }

  ghost predicate Over(s: ClientState) {
    s.closed || StreamClosed(s.stream)
  }

  lemma OverStays(s: ClientState, event: Event)
    requires Inv(s) && Over(s)
    ensures Over(Next(s, event))
  {
    match event {
      case Starts(session) =>
      case Arrives(p, frame) =>
      case Takes(p) =>
      case Verifies(p, ok) =>
      case SendsReady(p, ok) => if p < |s.peers| { ReadyStaysOver(s, p, ok); }
      case Confirms(p) =>
      case PeerCloses(p) =>
      case AttemptCloses(p) =>
      case Finalizes =>
      case Closes =>
      case Sweeps => CloseOthersStaysOver(s, |s.peers|, |s.peers|);
    }
  }

  lemma {:induction false} CloseOthersStaysOver(s: ClientState, except: nat, n: nat)
    requires n <= |s.peers|
    ensures CloseOthers(s, except, n).closed == s.closed
    ensures StreamClosed(CloseOthers(s, except, n).stream) == StreamClosed(s.stream)
    decreases n
  {
    if n > 0 {
      CloseOthersStaysOver(s, except, n - 1);
    }
  }

  lemma ReadyStaysOver(s: ClientState, p: nat, ok: bool)
    requires p < |s.peers| && Over(s)
    ensures Over(ReadySettles(s, p, ok))
  {
    if s.peers[p].stage == SendingReady && ok {
      var more := s.peers[p := s.peers[p].(stage := Confirming, bound := true)];
      CloseOthersStaysOver(s.(peers := more, stream := Some(BindStream(s.stream, p))), p, |s.peers|);
    }
  }

  /** No step of the run strands the client. */
  predicate Smooth(s: ClientState, events: seq<Event>)
    decreases |events|
  {
    events == [] || (!Strands(s, events[0]) && Smooth(Next(s, events[0]), events[1..]))
  }

  /** Without such a step, whoever is claimed is open, until the connection is over. */
  lemma {:induction false} SmoothRunsStayLive(s: ClientState, events: seq<Event>)
    requires Inv(s) && (Over(s) || (OnItsWay(s) && Live(s))) && Smooth(s, events)
    ensures Live(Run(s, events))
    decreases |events|
  {
    if events == [] {
    } else {
      NextKeeps(s, events[0]);
      if Over(s) {
        OverStays(s, events[0]);
      } else {
        StrandedExactly(s, events[0]);
      }
      SmoothRunsStayLive(Next(s, events[0]), events[1..]);
    }
  }

  /** Once stranded, the client has the same dead peer after any run that does not end in its being over. */
  lemma {:induction false} StrandedRuns(s: ClientState, events: seq<Event>)
    requires Inv(s) && !Live(s) && !Over(Run(s, events))
    ensures Run(s, events).link == s.link && |Run(s, events).peers| == |s.peers| && !Live(Run(s, events))
    decreases |events|
  {
    if events == [] {
    } else {
      NextKeeps(s, events[0]);
      StrandedForGood(s, events[0]);
      if Over(Next(s, events[0])) {
        OverForever(Next(s, events[0]), events[1..]);
      } else {
        StrandedRuns(Next(s, events[0]), events[1..]);
      }
    }
  }

  lemma {:induction false} OverForever(s: ClientState, events: seq<Event>)
    requires Inv(s) && Over(s)
    ensures Over(Run(s, events))
    decreases |events|
  {
    if events == [] {
    } else {
      NextKeeps(s, events[0]);
      OverStays(s, events[0]);
      OverForever(Next(s, events[0]), events[1..]);
    }
  }

  // ----- such a run -----

  function One(attempt: Attempt, link: Option<nat>, attempts: set<nat>, trace: seq<Mark>): ClientState {
    NEW_CLIENT.(peers := [attempt], link := link, attempts := attempts, trace := trace)
  }

  lemma RunCons(s: ClientState, event: Event, rest: seq<Event>)
    ensures Run(s, [event] + rest) == Run(Next(s, event), rest)
  {
    assert ([event] + rest)[1..] == rest;
  }

  lemma ClaimSteps(session: nat)
    ensures Next(NEW_CLIENT, Starts(session)) == One(NewAttempt(session), None, {0}, [])
    ensures Next(One(NewAttempt(session), None, {0}, []), Arrives(0, Response)) ==
            One(NewAttempt(session).(frames := [Response]), None, {0}, [])
    ensures Next(One(NewAttempt(session).(frames := [Response]), None, {0}, []), Takes(0)) ==
            One(NewAttempt(session).(stage := Verifying), None, {0}, [])
    ensures Next(One(NewAttempt(session).(stage := Verifying), None, {0}, []), Verifies(0, true)) ==
            One(NewAttempt(session).(stage := SendingReady), Some(0), {0}, [ResponseVerified(0)])
  {
    assert [] + [Response] == [Response] && [Response][1..] == [];
    assert [NewAttempt(session)][0 := NewAttempt(session).(frames := [Response])] == [NewAttempt(session).(frames := [Response])];
  }

  lemma ReadyFails(session: nat)
    ensures var s := Next(One(NewAttempt(session).(stage := SendingReady), Some(0), {0}, [ResponseVerified(0)]), SendsReady(0, false));
            s.link == Some(0) && |s.peers| == 1 && s.peers[0].closed && !s.closed && s.stream.None?
  {
  }

  /** The run: the first AUTH_READY fails, and its peer stays claimed although it is closed. */
  lemma FailedReadyStrands(session: nat) returns (events: seq<Event>)
    ensures var s := Run(NEW_CLIENT, events);
            s.link == Some(0) && |s.peers| == 1 && s.peers[0].closed && !s.closed && s.stream.None? && !Live(s)
  {
    ClaimSteps(session);
    ReadyFails(session);
    var attempt := NewAttempt(session);
    events := [SendsReady(0, false)];
    assert [SendsReady(0, false)] + [] == [SendsReady(0, false)];
    RunCons(One(attempt.(stage := SendingReady), Some(0), {0}, [ResponseVerified(0)]), SendsReady(0, false), []);
    RunCons(One(attempt.(stage := Verifying), None, {0}, []), Verifies(0, true), events);
    events := [Verifies(0, true)] + events;
    RunCons(One(attempt.(frames := [Response]), None, {0}, []), Takes(0), events);
    events := [Takes(0)] + events;
    RunCons(One(attempt, None, {0}, []), Arrives(0, Response), events);
    events := [Arrives(0, Response)] + events;
    RunCons(NEW_CLIENT, Starts(session), events);
    events := [Starts(session)] + events;
  }
}
