/**
 * The layers composed: a client and a server admit each other over a pair of WebRtcStreams,
 * and each sends its terminal frames, encoded and queued by its PTY sender, which the other
 * decodes. A run interleaves the two streams, the two senders and the admission in any order.
 */
module WholeStack {
  import opened Bytes
  import M = StreamModel
  import R = StreamRuns
  import StreamPair
  import PairCredit
  import PairDelivery
  import SessionAuth
  import AuthenticatedStream
  import PtyCodec
  import PtySender

  /** The payloads of a terminal session, one for each frame. */
  function EncodeEach(frames: seq<PtyCodec.Frame>): seq<Chunk>
    requires PtyCodec.AllEncodable(frames)
  {
    if frames == [] then []
    else
      assert PtyCodec.Encodable(frames[0]);
      [PtyCodec.EncodeFrame(frames[0].kind, frames[0].data).value] + EncodeEach(frames[1..])
  }

  lemma {:induction false} FlattenEncoded(frames: seq<PtyCodec.Frame>)
    requires PtyCodec.AllEncodable(frames)
    ensures Flatten(EncodeEach(frames)) == PtyCodec.EncodeAll(frames)
    decreases |frames|
  {
    if frames != [] {
      assert PtyCodec.Encodable(frames[0]);
      FlattenEncoded(frames[1..]);
      var payloads := EncodeEach(frames);
      assert payloads[1..] == EncodeEach(frames[1..]);
    }
  }

  // ----- the session -----

  /** What the two parties bring along. */
  datatype Parties = Parties(
    mac: SessionAuth.Mac,
    token: SessionAuth.Token,
    clientNow: int,
    serverNow: int,
    clientNonce: SessionAuth.Nonce,
    serverNonce: SessionAuth.Nonce)

  /** The parties and their clocks can admit each other. */
  ghost predicate CanAdmit(x: Parties) {
    && SessionAuth.SafeInteger(x.clientNow) && SessionAuth.SafeInteger(x.serverNow)
    && SessionAuth.Unexpired(x.token, x.clientNow) && SessionAuth.Unexpired(x.token, x.serverNow)
    && -120 <= x.clientNow - x.serverNow <= 120
  }

  /** The client is side a of the pair. `called` says that it has sent its hello. */
  datatype Session = Session(
    pair: StreamPair.Pair,
    called: bool,
    clientAdmitted: bool,
    serverAdmitted: bool,
    client: PtySender.SenderState,
    server: PtySender.SenderState)

  function NewSession(windowA: nat, windowB: nat, high: nat, low: nat): Session {
    Session(StreamPair.Start(windowA, windowB), false, false, false,
            PtySender.NewSender(high, low), PtySender.NewSender(high, low))
  }

  /** What one party's sender does; the stream says whether it takes a payload, and when it has drained. */
  datatype SenderStep = Queues(payload: Chunk) | Begins | Drains | Counts | Records

  datatype Event =
    | Turns(turn: StreamPair.Turn)   // the streams and the channel, but no new payload
    | ClientCalls
    | ClientAdmits
    | ServerAdmits
    | AtClient(step: SenderStep)
    | AtServer(step: SenderStep)

  /** The sender after a step, and the payload it gives to its stream. */
  function StepSender(sender: PtySender.SenderState, stream: M.StreamState, step: SenderStep):
    (PtySender.SenderState, Option<Chunk>)
  {
    match step
    case Queues(payload) => (PtySender.Apply(sender, PtySender.Sends(payload)), None)
    case Begins =>
      var writable := stream.writeStatus.Writable?;
      if sender.stage.Idle? && sender.waiting != [] && !sender.failed && writable
      then (sender.Start(true), Some(sender.waiting[0]))
      else (sender.Start(writable), None)
    case Drains =>
      if stream.chain.Broken? then (sender.Drained(false), None)
      else if stream.chain.Idle? && stream.queue == [] then (sender.Drained(true), None)
      else (sender, None)
    case Counts => (sender.Count(), None)
    case Records => (sender.Record(), None)
  }

  function SendTurn(payload: Chunk): StreamPair.Act {
    StreamPair.Local(R.DoSend(payload))
  }

  function HelloOf(x: Parties): Option<Chunk> {
    match SessionAuth.CreateHello(x.mac, x.token, x.clientNow, x.clientNonce)
    case Ok(made) => Some(made.0)
    case Err(_) => None
  }

  function Call(x: Parties, s: Session): Session {
    if s.called || HelloOf(x).None? || !s.pair.a.s.writeStatus.Writable? then s else Speak(s, HelloOf(x).value)
  }

  function Speak(s: Session, hello: Chunk): Session {
    s.(called := true, pair := StreamPair.Take(s.pair, StreamPair.First(SendTurn(hello))))
  }

  /** The server admits what it has read so far, and answers it. */
  function Admit(x: Parties, s: Session): Session {
    if s.serverAdmitted || !s.pair.b.s.writeStatus.Writable? then s
    else
      match AuthenticatedStream.ServerAdmits(x.mac, x.token, Flatten(s.pair.b.s.yielded), x.serverNow)
      case Err(_) => s
      case Ok(admitted) => Answer(s, SessionAuth.CreateAck(x.mac, x.token, admitted.0, x.serverNonce))
  }

  function Answer(s: Session, ack: Chunk): Session {
    s.(serverAdmitted := true, pair := StreamPair.Take(s.pair, StreamPair.Second(SendTurn(ack))))
  }

  function ClientGives(s: Session, sender: PtySender.SenderState, out: Option<Chunk>): Session {
    match out
    case None => s.(client := sender)
    case Some(payload) => s.(client := sender, pair := StreamPair.Take(s.pair, StreamPair.First(SendTurn(payload))))
  }

  function ServerGives(s: Session, sender: PtySender.SenderState, out: Option<Chunk>): Session {
    match out
    case None => s.(server := sender)
    case Some(payload) => s.(server := sender, pair := StreamPair.Take(s.pair, StreamPair.Second(SendTurn(payload))))
  }

  function Next(x: Parties, s: Session, event: Event): Session {
    match event
    case Turns(turn) =>
      if turn.act.Local? && turn.act.op.DoSend? then s else s.(pair := StreamPair.Take(s.pair, turn))
    case ClientCalls => Call(x, s)
    case ServerAdmits => Admit(x, s)
    case ClientAdmits =>
      if !s.called || ShownToClient(x, s.pair.a.s.yielded).Err? then s else s.(clientAdmitted := true)
    case AtClient(step) =>
      if !s.clientAdmitted then s
      else
        var (sender, out) := StepSender(s.client, s.pair.a.s, step);
        ClientGives(s, sender, out)
    case AtServer(step) =>
      if !s.serverAdmitted then s
      else
        var (sender, out) := StepSender(s.server, s.pair.b.s, step);
        ServerGives(s, sender, out)
  }

  function Run(x: Parties, s: Session, events: seq<Event>): Session
    decreases |events|
  {
    if events == [] then s else Run(x, Next(x, s, events[0]), events[1..])
  }

  /** No channel is lost and nobody aborts. */
  predicate LossFree(events: seq<Event>) {
    forall event :: event in events && event.Turns? ==> PairDelivery.Calm(event.turn.act)
  }

  /** What the server makes of the chunks its stream has yielded. */
  function ShownToServer(x: Parties, chunks: seq<Chunk>): Result<PtyCodec.Parse, AuthenticatedStream.AdmissionError> {
    match AuthenticatedStream.ServerAdmits(x.mac, x.token, Flatten(chunks), x.serverNow)
    case Err(e) => Err(e)
    case Ok(admitted) => Ok(PtyCodec.ParseFrames(admitted.1))
  }

  /** What the client makes of the chunks its stream has yielded. */
  function ShownToClient(x: Parties, chunks: seq<Chunk>): Result<PtyCodec.Parse, AuthenticatedStream.AdmissionError> {
    match SessionAuth.CreateHello(x.mac, x.token, x.clientNow, x.clientNonce)
    case Err(failure) => Err(AuthenticatedStream.Refused(failure))
    case Ok(made) =>
      match AuthenticatedStream.ClientAdmits(x.mac, x.token, made.1, Flatten(chunks))
      case Err(e) => Err(e)
      case Ok(rest) => Ok(PtyCodec.ParseFrames(rest))
  }

  // ----- what the streams were given -----

  /** A region that is no send accepts nothing. */
  lemma NothingAccepted(s: M.StreamState, op: R.Op)
    requires !op.DoSend?
    ensures R.Apply(s, op).s.accepted == s.accepted
  {
    match op
    case DoChain => ChainAcceptsNothing(s);
    case DoSendFailed => SettlingAcceptsNothing(s, true);
    case DoEofSettled(ok) => SettlingAcceptsNothing(s, ok);
    case DoControl(control) => ControlAcceptsNothing(s, control);
    case DoAbort => EndingAcceptsNothing(s, 0);
    case DoDisconnect(graceMs) => EndingAcceptsNothing(s, graceMs);
    case DoLeft => EndingAcceptsNothing(s, 0);
    case DoTimer => EndingAcceptsNothing(s, 0);
    case DoNext => if s.reader.Resting? {} else {}
    case DoReader => if s.reader.Acking? {} else {}
    case DoSendOk =>
    case DoClose =>
    case DoCloseDrained =>
    case DoData(c) =>
    case DoReconnect =>
    case DoReturn =>
    case DoGreet =>
    case DoKeepAlive =>
  }

  lemma ChainAcceptsNothing(s: M.StreamState)
    ensures s.ChainStep().accepted == s.accepted
  {
    match s.chain
    case AtPeer(c, again) => if s.connection.Connected? {} else {}
    case AtFlow(c) => if s.Blocked(|c|) {} else {}
    case _ =>
  }

  lemma EndingAcceptsNothing(s: M.StreamState, graceMs: nat)
    ensures s.AbortCall().s.accepted == s.accepted && s.RemoteAbort().accepted == s.accepted
    ensures s.PeerLeft().accepted == s.accepted && s.PeerDisconnected(graceMs).accepted == s.accepted
    ensures s.EndRead().MaybeFinalize().accepted == s.accepted
  {
    if s.finalized {} else {}
  }

  lemma SettlingAcceptsNothing(s: M.StreamState, ok: bool)
    ensures s.SendFailed().accepted == s.accepted && s.EofSettled(ok).s.accepted == s.accepted
  {
    if s.chain.Sending? {
      EndingAcceptsNothing(s.(inFlight := s.Refunded(), chain := M.AtPeer(s.chain.chunk, false)), M.RECONNECT_GRACE_MS);
    }
    if s.closer.SendingEof? && ok {
      if s.finalized {} else {}
    }
  }

  lemma ControlAcceptsNothing(s: M.StreamState, control: M.Control)
    ensures s.ReceiveControl(control).s.accepted == s.accepted
  {
    match control
    case Eof => EndingAcceptsNothing(s, 0);
    case Abort => EndingAcceptsNothing(s, 0);
    case Ack(n) => if n <= 0 {} else {}
    case _ =>
  }

  lemma MoveAcceptsNothing(me: StreamPair.Side, act: StreamPair.Act, net: StreamPair.Net)
    requires !(act.Local? && act.op.DoSend?)
    ensures StreamPair.Move(me, act, net).me.s.accepted == me.s.accepted
  {
    PairCredit.MoveIsRegion(me, act, net);
    match PairCredit.OpOf(me, act, net)
    case Some(op) => NothingAccepted(me.s, op);
    case None =>
  }

  lemma TurnAcceptsNothing(p: StreamPair.Pair, turn: StreamPair.Turn)
    requires !(turn.act.Local? && turn.act.op.DoSend?)
    ensures StreamPair.Take(p, turn).a.s.accepted == p.a.s.accepted
    ensures StreamPair.Take(p, turn).b.s.accepted == p.b.s.accepted
  {
    match turn
    case First(act) => MoveAcceptsNothing(p.a, act, p.net);
    case Second(act) => MoveAcceptsNothing(p.b, act, p.net);
  }

  lemma SendIsAccepted(p: StreamPair.Pair, payload: Chunk)
    ensures p.a.s.writeStatus.Writable? ==>
              StreamPair.Take(p, StreamPair.First(SendTurn(payload))).a.s.accepted == p.a.s.accepted + [payload]
    ensures StreamPair.Take(p, StreamPair.First(SendTurn(payload))).b.s == p.b.s
    ensures p.b.s.writeStatus.Writable? ==>
              StreamPair.Take(p, StreamPair.Second(SendTurn(payload))).b.s.accepted == p.b.s.accepted + [payload]
    ensures StreamPair.Take(p, StreamPair.Second(SendTurn(payload))).a.s == p.a.s
  {
  }

  lemma TurnStaysCalm(p: StreamPair.Pair, turn: StreamPair.Turn)
    requires PairDelivery.CalmPair(p) && PairDelivery.Calm(turn.act)
    ensures PairDelivery.CalmPair(StreamPair.Take(p, turn))
  {
    match turn
    case First(act) => PairDelivery.DoCalm(p, act);
    case Second(act) => PairDelivery.DoCalm(StreamPair.Swap(p), act);
  }

  // ----- the invariant -----

  /** What a party has given to its stream: its admission frame, and then what its sender sent. */
  predicate Given(accepted: seq<Chunk>, spoke: bool, frame: Chunk, sender: PtySender.SenderState, admitted: bool) {
    && accepted == (if spoke then [frame] + sender.sent else [])
    && (!admitted ==> sender.sent == [])
  }

  function HelloFrame(x: Parties): Chunk
    requires HelloOf(x).Some?
  {
    HelloOf(x).value
  }

  function AckFrame(x: Parties): Chunk
    requires SessionAuth.SafeInteger(x.clientNow)
  {
    SessionAuth.CreateAck(x.mac, x.token, SessionAuth.Hello(x.clientNow, x.clientNonce), x.serverNonce)
  }

  ghost predicate Inv(x: Parties, s: Session)
    requires CanAdmit(x) && HelloOf(x).Some?
  {
    && PairDelivery.CalmPair(s.pair)
    && PtySender.Balanced(s.client) && PtySender.Balanced(s.server)
    && (s.clientAdmitted ==> s.called)
    && Given(s.pair.a.s.accepted, s.called, HelloFrame(x), s.client, s.clientAdmitted)
    && Given(s.pair.b.s.accepted, s.serverAdmitted, AckFrame(x), s.server, s.serverAdmitted)
  }

  /** The admission frames are accepted: the hello by the server, the acknowledgement by the client. */
  lemma FramesAdmit(x: Parties)
    requires CanAdmit(x)
    ensures HelloOf(x).Some? && |HelloFrame(x)| == SessionAuth.FRAME_BYTES == |AckFrame(x)|
    ensures SessionAuth.VerifyHello(x.mac, x.token, HelloFrame(x), x.serverNow) ==
            Ok(SessionAuth.Hello(x.clientNow, x.clientNonce))
    ensures SessionAuth.CreateHello(x.mac, x.token, x.clientNow, x.clientNonce).Ok?
    ensures SessionAuth.CreateHello(x.mac, x.token, x.clientNow, x.clientNonce).value.1 ==
            SessionAuth.Hello(x.clientNow, x.clientNonce)
    ensures SessionAuth.VerifyAck(x.mac, x.token, SessionAuth.Hello(x.clientNow, x.clientNonce), AckFrame(x)) ==
            Ok(x.serverNonce)
  {
    SessionAuth.HandshakeCompletes(x.mac, x.token, x.clientNow, x.serverNow, x.clientNonce, x.serverNonce);
  }

  /** The bytes after an admission frame are the front of the encoded session. */
  lemma ArrivedBytes(frame: Chunk, sent: seq<Chunk>, payloads: seq<Chunk>, yielded: seq<Chunk>)
    requires sent <= payloads && yielded <= [frame] + sent && |Flatten(yielded)| >= |frame|
    ensures Flatten(yielded)[..|frame|] == frame
    ensures Flatten(yielded)[|frame|..] <= Flatten(payloads)
    ensures yielded == [frame] + payloads ==> Flatten(yielded)[|frame|..] == Flatten(payloads)
  {
    FlattenPrefix(yielded, [frame] + sent);
    FlattenAppend([frame], sent);
    FlattenAppend([frame], payloads);
    FlattenOne(frame);
    FlattenPrefix(sent, payloads);
    var all := frame + Flatten(sent);
    assert Flatten(yielded) <= all;
    assert Flatten(yielded)[..|frame|] == all[..|frame|] == frame;
    assert Flatten(yielded)[|frame|..] <= all[|frame|..] == Flatten(sent);
    assert (frame + Flatten(payloads))[|frame|..] == Flatten(payloads);
  }

  // ----- every step keeps it -----

  /** A sender's step keeps its books, and what it sends is what it gives to its stream. */
  lemma BeginStays(sender: PtySender.SenderState, stream: M.StreamState)
    requires PtySender.Balanced(sender)
    ensures var (t, out) := StepSender(sender, stream, Begins);
            && PtySender.Balanced(t)
            && (out.Some? ==> t.sent == sender.sent + [out.value] && stream.writeStatus.Writable?)
            && (out.None? ==> t.sent == sender.sent)
  {
    PtySender.StartBalances(sender, stream.writeStatus.Writable?);
  }

  lemma DrainStays(sender: PtySender.SenderState, stream: M.StreamState)
    requires PtySender.Balanced(sender)
    ensures var (t, out) := StepSender(sender, stream, Drains);
            PtySender.Balanced(t) && out.None? && t.sent == sender.sent
  {
    PtySender.ApplyBalances(sender, PtySender.Drains(true));
    PtySender.ApplyBalances(sender, PtySender.Drains(false));
  }

  lemma SenderStays(sender: PtySender.SenderState, stream: M.StreamState, step: SenderStep)
    requires PtySender.Balanced(sender)
    ensures var (t, out) := StepSender(sender, stream, step);
            && PtySender.Balanced(t)
            && (out.Some? ==> t.sent == sender.sent + [out.value] && stream.writeStatus.Writable?)
            && (out.None? ==> t.sent == sender.sent)
  {
    match step
    case Queues(payload) => PtySender.ApplyBalances(sender, PtySender.Sends(payload));
    case Begins => BeginStays(sender, stream);
    case Drains => DrainStays(sender, stream);
    case Counts => PtySender.ApplyBalances(sender, PtySender.Counts);
    case Records => PtySender.ApplyBalances(sender, PtySender.Records);
  }

  lemma SentBy(frame: Chunk, sent: seq<Chunk>, payload: Chunk)
    ensures [frame] + sent + [payload] == [frame] + (sent + [payload])
  {
  }

  /** The client's sender makes a step, and may give a payload to its stream. */
  lemma ClientGivesKeeps(x: Parties, s: Session, sender: PtySender.SenderState, out: Option<Chunk>)
    requires CanAdmit(x) && HelloOf(x).Some? && Inv(x, s) && s.clientAdmitted
    requires PtySender.Balanced(sender)
    requires out.None? ==> sender.sent == s.client.sent
    requires out.Some? ==> sender.sent == s.client.sent + [out.value] && s.pair.a.s.writeStatus.Writable?
    ensures Inv(x, ClientGives(s, sender, out))
  {
    if out.Some? {
      TurnStaysCalm(s.pair, StreamPair.First(SendTurn(out.value)));
      SendIsAccepted(s.pair, out.value);
      SentBy(HelloFrame(x), s.client.sent, out.value);
    }
  }

  lemma ServerGivesKeeps(x: Parties, s: Session, sender: PtySender.SenderState, out: Option<Chunk>)
    requires CanAdmit(x) && HelloOf(x).Some? && Inv(x, s) && s.serverAdmitted
    requires PtySender.Balanced(sender)
    requires out.None? ==> sender.sent == s.server.sent
    requires out.Some? ==> sender.sent == s.server.sent + [out.value] && s.pair.b.s.writeStatus.Writable?
    ensures Inv(x, ServerGives(s, sender, out))
  {
    if out.Some? {
      TurnStaysCalm(s.pair, StreamPair.Second(SendTurn(out.value)));
      SendIsAccepted(s.pair, out.value);
      SentBy(AckFrame(x), s.server.sent, out.value);
    }
  }

  /** The streams of an invariant session, and what they were given. */
  ghost predicate Streams(s: Session, p: StreamPair.Pair, toA: seq<Chunk>, toB: seq<Chunk>) {
    && PairDelivery.CalmPair(p)
    && p.a.s.accepted == s.pair.a.s.accepted + toA
    && p.b.s.accepted == s.pair.b.s.accepted + toB
  }

  lemma SpokenStreams(s: Session, frame: Chunk)
    requires PairDelivery.CalmPair(s.pair)
    ensures s.pair.a.s.writeStatus.Writable? ==> Streams(s, Speak(s, frame).pair, [frame], [])
    ensures s.pair.b.s.writeStatus.Writable? ==> Streams(s, Answer(s, frame).pair, [], [frame])
  {
    TurnStaysCalm(s.pair, StreamPair.First(SendTurn(frame)));
    TurnStaysCalm(s.pair, StreamPair.Second(SendTurn(frame)));
    SendIsAccepted(s.pair, frame);
    assert s.pair.a.s.accepted + [] == s.pair.a.s.accepted && s.pair.b.s.accepted + [] == s.pair.b.s.accepted;
  }

  lemma OneFrame(accepted: seq<Chunk>, frame: Chunk, sent: seq<Chunk>)
    requires accepted == [] + [frame] && sent == []
    ensures accepted == [frame] + sent
  {
  }

  lemma SpeakKeeps(x: Parties, s: Session, hello: Chunk, t: Session)
    requires CanAdmit(x) && HelloOf(x) == Some(hello) && Inv(x, s) && !s.called && s.pair.a.s.writeStatus.Writable?
    requires t == s.(called := true, pair := t.pair) && Streams(s, t.pair, [hello], [])
    ensures Inv(x, t)
  {
    OneFrame(t.pair.a.s.accepted, hello, s.client.sent);
    assert s.pair.b.s.accepted + [] == s.pair.b.s.accepted;
  }

  lemma SpokenKeeps(x: Parties, s: Session, hello: Chunk)
    requires CanAdmit(x) && HelloOf(x) == Some(hello) && Inv(x, s) && !s.called && s.pair.a.s.writeStatus.Writable?
    ensures Inv(x, Speak(s, hello))
  {
    SpokenStreams(s, hello);
    SpeakKeeps(x, s, hello, Speak(s, hello));
  }

  lemma CallKeeps(x: Parties, s: Session, t: Session)
    requires CanAdmit(x) && HelloOf(x).Some? && Inv(x, s) && t == Call(x, s)
    ensures Inv(x, t)
  {
    if s.called {
      assert t == s;
    } else if !s.pair.a.s.writeStatus.Writable? {
      assert t == s;
    } else {
      SpokenKeeps(x, s, HelloOf(x).value);
      assert t == Speak(s, HelloOf(x).value);
    }
  }

  /** Both directions of a calm pair are faithful. */
  lemma CalmIsFaithful(p: StreamPair.Pair)
    requires PairDelivery.CalmPair(p)
    ensures PairDelivery.Faithful(p.a, p.b) && PairDelivery.Faithful(p.b, p.a)
  {
    PairDelivery.ExactIsFaithful(p.a, p.b);
    PairDelivery.ExactIsFaithful(p.b, p.a);
  }

  /** A server that admits has read the client's own hello. */
  lemma ServerReadsHello(x: Parties, s: Session)
    requires CanAdmit(x) && HelloOf(x).Some? && Inv(x, s)
    requires |Flatten(s.pair.b.s.yielded)| >= SessionAuth.FRAME_BYTES
    ensures s.called && Flatten(s.pair.b.s.yielded)[..SessionAuth.FRAME_BYTES] == HelloFrame(x)
  {
    CalmIsFaithful(s.pair);
    FramesAdmit(x);
    if s.called {
      ArrivedBytes(HelloFrame(x), s.client.sent, s.client.sent, s.pair.b.s.yielded);
    }
  }

  /** A client that admits has read the server's acknowledgement of its hello. */
  lemma ClientReadsAck(x: Parties, s: Session)
    requires CanAdmit(x) && HelloOf(x).Some? && Inv(x, s)
    requires |Flatten(s.pair.a.s.yielded)| >= SessionAuth.FRAME_BYTES
    ensures s.serverAdmitted && Flatten(s.pair.a.s.yielded)[..SessionAuth.FRAME_BYTES] == AckFrame(x)
  {
    CalmIsFaithful(s.pair);
    FramesAdmit(x);
    if s.serverAdmitted {
      ArrivedBytes(AckFrame(x), s.server.sent, s.server.sent, s.pair.a.s.yielded);
    }
  }

  lemma AnswerKeeps(x: Parties, s: Session, ack: Chunk, t: Session)
    requires CanAdmit(x) && HelloOf(x).Some? && Inv(x, s) && !s.serverAdmitted && ack == AckFrame(x)
    requires t == s.(serverAdmitted := true, pair := t.pair) && Streams(s, t.pair, [], [ack])
    ensures Inv(x, t)
  {
    OneFrame(t.pair.b.s.accepted, ack, s.server.sent);
    assert s.pair.a.s.accepted + [] == s.pair.a.s.accepted;
  }

  /** What the server admits is the client's own hello, so its answer is the acknowledgement of that. */
  lemma ServerKnows(x: Parties, s: Session, admitted: (SessionAuth.Hello, Chunk))
    requires CanAdmit(x) && HelloOf(x).Some? && Inv(x, s)
    requires AuthenticatedStream.ServerAdmits(x.mac, x.token, Flatten(s.pair.b.s.yielded), x.serverNow) == Ok(admitted)
    ensures SessionAuth.CreateAck(x.mac, x.token, admitted.0, x.serverNonce) == AckFrame(x)
  {
    ServerReadsHello(x, s);
    FramesAdmit(x);
  }

  lemma ServerAnswers(x: Parties, s: Session, admitted: (SessionAuth.Hello, Chunk))
    requires CanAdmit(x) && HelloOf(x).Some? && Inv(x, s) && !s.serverAdmitted && s.pair.b.s.writeStatus.Writable?
    requires AuthenticatedStream.ServerAdmits(x.mac, x.token, Flatten(s.pair.b.s.yielded), x.serverNow) == Ok(admitted)
    ensures Inv(x, Answer(s, SessionAuth.CreateAck(x.mac, x.token, admitted.0, x.serverNonce)))
  {
    var ack := SessionAuth.CreateAck(x.mac, x.token, admitted.0, x.serverNonce);
    ServerKnows(x, s, admitted);
    SpokenStreams(s, ack);
    AnswerKeeps(x, s, ack, Answer(s, ack));
  }

  lemma ServerAdmitKeeps(x: Parties, s: Session, t: Session)
    requires CanAdmit(x) && HelloOf(x).Some? && Inv(x, s) && t == Admit(x, s)
    ensures Inv(x, t)
  {
    if s.serverAdmitted {
      assert t == s;
    } else if !s.pair.b.s.writeStatus.Writable? {
      assert t == s;
    } else {
      match AuthenticatedStream.ServerAdmits(x.mac, x.token, Flatten(s.pair.b.s.yielded), x.serverNow)
      case Err(_) => assert t == s;
      case Ok(admitted) =>
        ServerAnswers(x, s, admitted);
        assert t == Answer(s, SessionAuth.CreateAck(x.mac, x.token, admitted.0, x.serverNonce));
    }
  }

  lemma NextKeeps(x: Parties, s: Session, event: Event)
    requires CanAdmit(x) && HelloOf(x).Some? && Inv(x, s)
    requires event.Turns? ==> PairDelivery.Calm(event.turn.act)
    ensures Inv(x, Next(x, s, event))
  {
    match event {
      case Turns(turn) =>
        if !(turn.act.Local? && turn.act.op.DoSend?) {
          TurnStaysCalm(s.pair, turn);
          TurnAcceptsNothing(s.pair, turn);
        }
      case ClientCalls => CallKeeps(x, s, Call(x, s));
      case ClientAdmits =>
      case ServerAdmits => ServerAdmitKeeps(x, s, Admit(x, s));
      case AtClient(step) =>
        if s.clientAdmitted {
          SenderStays(s.client, s.pair.a.s, step);
          var (sender, out) := StepSender(s.client, s.pair.a.s, step);
          ClientGivesKeeps(x, s, sender, out);
        }
      case AtServer(step) =>
        if s.serverAdmitted {
          SenderStays(s.server, s.pair.b.s, step);
          var (sender, out) := StepSender(s.server, s.pair.b.s, step);
          ServerGivesKeeps(x, s, sender, out);
        }
    }
  }

  lemma {:induction false} RunKeeps(x: Parties, s: Session, events: seq<Event>)
    requires CanAdmit(x) && HelloOf(x).Some? && Inv(x, s) && LossFree(events)
    ensures Inv(x, Run(x, s, events))
    decreases |events|
  {
    if events == [] {
    } else {
      assert events[0] in events;
      NextKeeps(x, s, events[0]);
      assert forall event :: event in events[1..] ==> event in events;
      RunKeeps(x, Next(x, s, events[0]), events[1..]);
    }
  }

  lemma NewKeeps(x: Parties, windowA: nat, windowB: nat, high: nat, low: nat)
    requires CanAdmit(x) && HelloOf(x).Some? && low < high
    ensures Inv(x, NewSession(windowA, windowB, high, low))
  {
    PairDelivery.StartCalm(windowA, windowB);
    PtySender.NewBalances(high, low);
  }

  // ----- what comes out -----

  /** Behind its admission frame, a stream brings a prefix of the frames put in, and at its end all that were sent. */
  lemma FramesComeOut(frame: Chunk, sender: PtySender.SenderState, frames: seq<PtyCodec.Frame>, yielded: seq<Chunk>)
    requires PtyCodec.AllEncodable(frames) && PtySender.Balanced(sender) && sender.queued == EncodeEach(frames)
    requires |frame| == SessionAuth.FRAME_BYTES && yielded <= [frame] + sender.sent
    requires |Flatten(yielded)| >= SessionAuth.FRAME_BYTES
    ensures var p := PtyCodec.ParseFrames(Flatten(yielded)[SessionAuth.FRAME_BYTES..]);
            && !p.failed && p.frames <= frames
            && (yielded == [frame] + sender.sent && sender.sent == sender.queued ==> p == PtyCodec.Parse(frames, [], false))
  {
    FlattenEncoded(frames);
    ArrivedBytes(frame, sender.sent, EncodeEach(frames), yielded);
    PtyCodec.PartialStream(frames, Flatten(yielded)[SessionAuth.FRAME_BYTES..]);
    PtyCodec.DecodeEncode(frames);
  }

  /** A stream that brought everything brought its admission frame. */
  lemma WholeIsLong(frame: Chunk, sent: seq<Chunk>)
    ensures |Flatten([frame] + sent)| >= |frame|
  {
    FlattenAppend([frame], sent);
    FlattenOne(frame);
  }

  /**
   * From the client to the server, in every loss-free run with every interleaving of the
   * streams, the senders and the admission: once the hello has arrived the server refuses
   * nothing and decodes a prefix of the frames the client put in; and all of them, with
   * nothing left over, once its stream has ended and the sender had given out everything.
   */
  lemma ClientIsHeard(x: Parties, windowA: nat, windowB: nat, high: nat, low: nat, events: seq<Event>,
                      frames: seq<PtyCodec.Frame>)
    requires CanAdmit(x) && low < high && LossFree(events) && PtyCodec.AllEncodable(frames)
    requires Run(x, NewSession(windowA, windowB, high, low), events).client.queued == EncodeEach(frames)
    ensures var s := Run(x, NewSession(windowA, windowB, high, low), events);
            var b := s.pair.b.s;
            var shown := ShownToServer(x, b.yielded);
            && (|Flatten(b.yielded)| >= SessionAuth.FRAME_BYTES ==>
                  shown.Ok? && !shown.value.failed && shown.value.frames <= frames)
            && (b.reader.Ended? && s.called && s.client.sent == s.client.queued ==>
                  shown == Ok(PtyCodec.Parse(frames, [], false)))
  {
    FramesAdmit(x);
    NewKeeps(x, windowA, windowB, high, low);
    RunKeeps(x, NewSession(windowA, windowB, high, low), events);
    var s := Run(x, NewSession(windowA, windowB, high, low), events);
    CalmIsFaithful(s.pair);
    if s.called && s.pair.b.s.reader.Ended? {
      WholeIsLong(HelloFrame(x), s.client.sent);
    }
    if |Flatten(s.pair.b.s.yielded)| >= SessionAuth.FRAME_BYTES {
      ServerReadsHello(x, s);
      FramesComeOut(HelloFrame(x), s.client, frames, s.pair.b.s.yielded);
    }
  }

  /** And from the server to the client, behind the acknowledgement, in just the same way. */
  lemma ServerIsHeard(x: Parties, windowA: nat, windowB: nat, high: nat, low: nat, events: seq<Event>,
                      frames: seq<PtyCodec.Frame>)
    requires CanAdmit(x) && low < high && LossFree(events) && PtyCodec.AllEncodable(frames)
    requires Run(x, NewSession(windowA, windowB, high, low), events).server.queued == EncodeEach(frames)
    ensures var s := Run(x, NewSession(windowA, windowB, high, low), events);
            var a := s.pair.a.s;
            var shown := ShownToClient(x, a.yielded);
            && (|Flatten(a.yielded)| >= SessionAuth.FRAME_BYTES ==>
                  shown.Ok? && !shown.value.failed && shown.value.frames <= frames)
            && (a.reader.Ended? && s.serverAdmitted && s.server.sent == s.server.queued ==>
                  shown == Ok(PtyCodec.Parse(frames, [], false)))
  {
    FramesAdmit(x);
    NewKeeps(x, windowA, windowB, high, low);
    RunKeeps(x, NewSession(windowA, windowB, high, low), events);
    var s := Run(x, NewSession(windowA, windowB, high, low), events);
    CalmIsFaithful(s.pair);
    if s.serverAdmitted && s.pair.a.s.reader.Ended? {
      WholeIsLong(AckFrame(x), s.server.sent);
    }
    if |Flatten(s.pair.a.s.yielded)| >= SessionAuth.FRAME_BYTES {
      ClientReadsAck(x, s);
      FramesComeOut(AckFrame(x), s.server, frames, s.pair.a.s.yielded);
    }
  }
}
