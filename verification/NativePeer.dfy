/**
 * NativeWebRtcPeer: its two-byte frame header, and the queue in which ICE candidates wait for
 * the remote description. The connection itself is its answers to setRemoteDescription and
 * addIceCandidate.
 */
module NativePeer {
  import opened Bytes

  // ----- frames -----

  const PROTOCOL_VERSION: byte := 2

  function EncodeFrame(kind: byte, payload: Chunk): Chunk {
    [PROTOCOL_VERSION, kind] + payload
  }

  function DecodeFrame(frame: Chunk): Result<(byte, Chunk), string> {
    if |frame| < 2 then Err("Native WebRTC frame is shorter than its header")
    else if frame[0] != PROTOCOL_VERSION then Err("Unsupported native WebRTC protocol version")
    else Ok((frame[1], frame[2..]))
  }

  /** A frame decodes to a kind and a payload exactly when it is their encoding. */
  lemma FrameExact(frame: Chunk, kind: byte, payload: Chunk)
    ensures DecodeFrame(frame) == Ok((kind, payload)) <==> frame == EncodeFrame(kind, payload)
  {
    if DecodeFrame(frame) == Ok((kind, payload)) {
      assert frame == frame[..2] + frame[2..];
    }
  }

  // ----- candidates -----

  type Candidate = nat

  /**
   * `setting` counts the calls of setRemoteDescription that have not settled, `settled` those
   * that succeeded and whose continuation has not run. `flushing` holds what each running
   * flush has still to apply. `received` and `applied` are history: the candidates signal was
   * given while the peer was open, and those given to addIceCandidate.
   */
  datatype PeerState = PeerState(
    closed: bool,
    described: bool,
    setting: nat,
    settled: nat,
    pending: seq<Candidate>,
    flushing: seq<seq<Candidate>>,
    received: seq<Candidate>,
    applied: seq<Candidate>)
  {
    function SignalCandidate(candidate: Option<Candidate>): PeerState {
      if closed || candidate.None? then this
      else if !described then this.(pending := pending + [candidate.value], received := received + [candidate.value])
      else this.(applied := applied + [candidate.value], received := received + [candidate.value])
    }

    function SignalDescription(): PeerState {
      if closed then this else this.(setting := setting + 1)
    }

    /** A rejected description makes the caller close the peer. */
    function DescriptionSettles(ok: bool): PeerState {
      if setting == 0 then this
      else if ok then this.(setting := setting - 1, settled := settled + 1, described := true)
      else this.(setting := setting - 1, closed := true)
    }

    function StartFlush(): PeerState {
      if settled == 0 then this
      else this.(settled := settled - 1, pending := [], flushing := flushing + [pending])
    }

    /** One turn of a flush: its next candidate, or nothing more. A rejected candidate ends it and closes the peer. */
    function FlushStep(i: nat, ok: bool): PeerState {
      if i >= |flushing| then this
      else if flushing[i] == [] then this.(flushing := flushing[..i] + flushing[i + 1..])
      else
        var t := this.(applied := applied + [flushing[i][0]]);
        if ok then t.(flushing := flushing[i := flushing[i][1..]])
        else t.(flushing := flushing[..i] + flushing[i + 1..], closed := true)
    }

    function Close(): PeerState {
      this.(closed := true)
    }
  }

  const NEW_PEER: PeerState := PeerState(false, false, 0, 0, [], [], [], [])

  // ----- every run -----

  datatype Event =
    | Candidate(candidate: Option<Candidate>)
    | Description
    | DescriptionIs(ok: bool)
    | Flush
    | Apply(i: nat, ok: bool)
    | Closes

  function Next(s: PeerState, event: Event): PeerState {
    match event
    case Candidate(c) => s.SignalCandidate(c)
    case Description => s.SignalDescription()
    case DescriptionIs(ok) => s.DescriptionSettles(ok)
    case Flush => s.StartFlush()
    case Apply(i, ok) => s.FlushStep(i, ok)
    case Closes => s.Close()
  }

  function Run(s: PeerState, events: seq<Event>): PeerState
    decreases |events|
  {
    if events == [] then s else Run(Next(s, events[0]), events[1..])
  }

  /** How often a candidate occurs in the batches. */
  function Count(batches: seq<seq<Candidate>>, c: Candidate): nat {
    if batches == [] then 0 else multiset(batches[0])[c] + Count(batches[1..], c)
  }

  function Placed(s: PeerState, c: Candidate): nat {
    multiset(s.applied)[c] + multiset(s.pending)[c] + Count(s.flushing, c)
  }

  /** Everything received is somewhere, and nothing is anywhere twice. */
  ghost predicate Accounted(s: PeerState) {
    forall c :: Placed(s, c) <= multiset(s.received)[c] && (!s.closed ==> Placed(s, c) == multiset(s.received)[c])
  }

  ghost predicate Ordered(s: PeerState) {
    && (!s.described ==> s.applied == [] && s.settled == 0 && s.flushing == [])
    && (s.described && s.pending != [] ==> s.settled > 0)
  }

  lemma {:induction false} CountSplit(batches: seq<seq<Candidate>>, i: nat, c: Candidate)
    requires i < |batches|
    ensures Count(batches, c) == Count(batches[..i], c) + multiset(batches[i])[c] + Count(batches[i + 1..], c)
  {
    if i > 0 {
      CountSplit(batches[1..], i - 1, c);
      assert batches[1..][..i - 1] == batches[..i][1..];
      assert batches[1..][i..] == batches[i + 1..];
    } else {
      assert batches[..0] == [];
    }
  }

  lemma {:induction false} CountAppend(a: seq<seq<Candidate>>, b: seq<seq<Candidate>>, c: Candidate)
    ensures Count(a + b, c) == Count(a, c) + Count(b, c)
  {
    if a == [] {
      assert a + b == b;
    } else {
      CountAppend(a[1..], b, c);
      assert (a + b)[1..] == a[1..] + b;
    }
  }

  lemma FlushStepPlaces(s: PeerState, i: nat, ok: bool, c: Candidate)
    requires i < |s.flushing|
    ensures Placed(s.FlushStep(i, ok), c) <= Placed(s, c)
    ensures ok || s.flushing[i] == [] ==> Placed(s.FlushStep(i, ok), c) == Placed(s, c)
  {
    var f := s.flushing;
    CountSplit(f, i, c);
    CountAppend(f[..i], f[i + 1..], c);
    if f[i] != [] {
      assert f[i] == [f[i][0]] + f[i][1..];
      if ok {
        var g := f[i := f[i][1..]];
        CountSplit(g, i, c);
        assert g[..i] == f[..i] && g[i + 1..] == f[i + 1..];
      }
    }
  }

  lemma FlushPlaces(s: PeerState, c: Candidate)
    ensures Placed(s.StartFlush(), c) == Placed(s, c)
  {
    CountAppend(s.flushing, [s.pending], c);
    assert Count([s.pending], c) == multiset(s.pending)[c] + Count([], c);
  }

  lemma CandidatePlaces(s: PeerState, candidate: Candidate, c: Candidate)
    requires !s.closed
    ensures Placed(s.SignalCandidate(Some(candidate)), c) == Placed(s, c) + (if c == candidate then 1 else 0)
    ensures multiset(s.SignalCandidate(Some(candidate)).received)[c] ==
            multiset(s.received)[c] + (if c == candidate then 1 else 0)
  {
    if s.described {
    } else {
    }
  }

  lemma NextAccounts(s: PeerState, event: Event)
    requires Accounted(s)
    ensures Accounted(Next(s, event))
  {
    var t := Next(s, event);
    forall c
      ensures Placed(t, c) <= multiset(t.received)[c] && (!t.closed ==> Placed(t, c) == multiset(t.received)[c])
    {
      assert Placed(s, c) <= multiset(s.received)[c];
      match event {
        case Candidate(candidate) => if !s.closed && candidate.Some? { CandidatePlaces(s, candidate.value, c); }
        case Description =>
        case DescriptionIs(ok) =>
        case Flush => FlushPlaces(s, c);
        case Apply(i, ok) => if i < |s.flushing| { FlushStepPlaces(s, i, ok, c); }
        case Closes =>
      }
    }
  }

  lemma NextKeepsOrder(s: PeerState, event: Event)
    requires Ordered(s)
    ensures Ordered(Next(s, event))
  {
    match event {
      case Candidate(candidate) =>
      case Description =>
      case DescriptionIs(ok) =>
      case Flush =>
      case Apply(i, ok) =>
      case Closes =>
    }
  }

  lemma {:induction false} RunKeeps(s: PeerState, events: seq<Event>)
    requires Accounted(s) && Ordered(s)
    ensures Accounted(Run(s, events)) && Ordered(Run(s, events))
    decreases |events|
  {
    if events == [] {
    } else {
      NextKeeps(s, events[0]);
      RunKeeps(Next(s, events[0]), events[1..]);
    }
  }

  /**
   * In every run no candidate is applied more often than it was received, and none before the
   * remote description; and once the description is there and every flush has run, all that an
   * open peer received has been applied: none is stranded.
   */
  lemma CandidatesAppliedOnce(events: seq<Event>)
    ensures var s := Run(NEW_PEER, events);
            && multiset(s.applied) <= multiset(s.received)
            && (s.applied != [] ==> s.described)
            && (s.described && s.settled == 0 ==> s.pending == [])
            && (!s.closed && s.described && s.settled == 0 && s.flushing == [] ==>
                  multiset(s.applied) == multiset(s.received))
  {
    RunKeeps(NEW_PEER, events);
    var s := Run(NEW_PEER, events);
    forall c
      ensures multiset(s.applied)[c] <= multiset(s.received)[c]
      ensures !s.closed && s.pending == [] && s.flushing == [] ==> multiset(s.applied)[c] == multiset(s.received)[c]
    {
      assert Placed(s, c) <= multiset(s.received)[c];
    }
  }

  lemma NextKeeps(s: PeerState, event: Event)
    requires Accounted(s) && Ordered(s)
    ensures Accounted(Next(s, event)) && Ordered(Next(s, event))
  {
    NextAccounts(s, event);
    NextKeepsOrder(s, event);
  }

  // ----- the object -----

  class CandidateQueue {
    var closed: bool
    var described: bool
    var setting: nat
    var settled: nat
    var pendingCandidates: seq<Candidate>
    var flushing: seq<seq<Candidate>>
    ghost var received: seq<Candidate>
    ghost var applied: seq<Candidate>

    ghost function State(): PeerState
      reads this
    {
      PeerState(closed, described, setting, settled, pendingCandidates, flushing, received, applied)
    }

    /** Nothing received is lost or doubled, and nothing waits without reason. */
    ghost predicate Valid()
      reads this
    {
      Accounted(State()) && Ordered(State())
    }

    constructor ()
      ensures State() == NEW_PEER && Valid()
    {
      closed, described, setting, settled := false, false, 0, 0;
      pendingCandidates, flushing, received, applied := [], [], [], [];
    }

    /** The candidate that addIceCandidate is to be given now, if any. */
    method SignalCandidate(candidate: Option<Candidate>) returns (apply: Option<Candidate>)
      requires Valid()
      modifies this
      ensures State() == old(State()).SignalCandidate(candidate)
      ensures applied == old(applied) + (match apply case Some(c) => [c] case None => [])
      ensures Valid()
    {
      NextKeeps(State(), Candidate(candidate));
      if closed || candidate.None? { return None; }
      received := received + [candidate.value];
      if !described {
        pendingCandidates := pendingCandidates + [candidate.value];
        return None;
      }
      applied := applied + [candidate.value];
      return candidate;
    }

    method SignalDescription()
      requires Valid()
      modifies this
      ensures State() == old(State()).SignalDescription()
      ensures Valid()
    {
      NextKeeps(State(), Description);
      if !closed { setting := setting + 1; }
    }

    method DescriptionSettles(ok: bool)
      requires Valid()
      modifies this
      ensures State() == old(State()).DescriptionSettles(ok)
      ensures Valid()
    {
      NextKeeps(State(), DescriptionIs(ok));
      if setting == 0 { return; }
      setting := setting - 1;
      if ok {
        described := true;
        settled := settled + 1;
      } else {
        closed := true;
      }
    }

    method StartFlush()
      requires Valid()
      modifies this
      ensures State() == old(State()).StartFlush()
      ensures Valid()
    {
      NextKeeps(State(), Flush);
      if settled == 0 { return; }
      settled := settled - 1;
      flushing := flushing + [pendingCandidates];
      pendingCandidates := [];
    }

    method FlushStep(i: nat, ok: bool) returns (apply: Option<Candidate>)
      requires Valid()
      modifies this
      ensures State() == old(State()).FlushStep(i, ok)
      ensures applied == old(applied) + (match apply case Some(c) => [c] case None => [])
      ensures Valid()
    {
      NextKeeps(State(), Apply(i, ok));
      if i >= |flushing| { return None; }
      var batch := flushing[i];
      if batch == [] {
        flushing := flushing[..i] + flushing[i + 1..];
        return None;
      }
      applied := applied + [batch[0]];
      if ok {
        flushing := flushing[i := batch[1..]];
      } else {
        flushing := flushing[..i] + flushing[i + 1..];
        closed := true;
      }
      return Some(batch[0]);
    }

    method Close()
      requires Valid()
      modifies this
      ensures State() == old(State()).Close()
      ensures Valid()
    {
      NextKeeps(State(), Closes);
      closed := true;
    }
  }
}
