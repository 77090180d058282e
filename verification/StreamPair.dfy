/**
 * Two WebRtcStreams joined by data channels that can be lost and replaced.
 *
 * `inbox` is what travels to a side, oldest first, each packet with the channel it travels on.
 * A side is bound to at most one channel by its `link`, and only frames of that channel reach
 * its stream; it can be bound to any channel that it was not bound to before, in whatever order,
 * and the two sides need not agree. A channel is in order, except that a control may still wait
 * for the buffer of the transport while later frames arrive. Whatever travels on a dead channel
 * may be lost at any time. A move of one side is a function of that side and of the network, so
 * a run is a list of moves.
 */
module StreamPair {
  import opened Bytes
  import opened StreamModel
  import opened StreamRuns

  datatype Frame = Data(chunk: Chunk) | Ctl(control: Control)

  datatype Packet = Packet(channel: nat, frame: Frame)

  /** The channels that were created, by number, and those that at least one end has lost. */
  datatype Net = Net(channels: nat, dead: set<nat>) {
    predicate Live(c: nat) {
      c < channels && c !in dead
    }
  }

  /**
   * `via` and `eofVia` are the links that the pending sendData and the pending eof were given,
   * `had` the channels that the side was bound to, in that order.
   */
  datatype Side = Side(
    s: StreamState,
    link: Option<nat>,
    via: Option<nat>,
    eofVia: Option<nat>,
    had: seq<nat>,
    inbox: seq<Packet>)

  datatype Pair = Pair(a: Side, b: Side, net: Net)

  datatype Act =
    | Local(op: Op)         // a region that needs nothing from the network
    | TakeData              // the transport takes the pending chunk
    | RefuseData            // the transport refuses it
    | TakeEof
    | RefuseEof
    | Deliver(index: nat)   // a frame of the bound channel arrives
    | Drop(index: nat)      // a frame of a dead channel is lost
    | Lose(channel: nat)    // a channel dies
    | Unbind(graceMs: nat)  // this side notices the loss of its channel
    | NewChannel
    | Bind(channel: nat)    // this side is bound to a channel it never had, live or already dead

  /** What a move makes of the side, what it sends, and what it makes of the network. */
  datatype Moved = Moved(me: Side, sent: seq<Packet>, net: Net)

  predicate IsLocal(op: Op) {
    !op.DoSendOk? && !op.DoSendFailed? && !op.DoEofSettled? && !op.DoData? && !op.DoControl? &&
    !op.DoDisconnect? && !op.DoReconnect?
  }

  /** The controls of a region leave on the link; without a link they are dropped. */
  function Post(link: Option<nat>, out: seq<Control>): seq<Packet> {
    if link.None? || out == [] then []
    else [Packet(link.value, Ctl(out[0]))] + Post(link, out[1..])
  }

  function Receive(s: StreamState, frame: Frame): Effect {
    match frame
    case Data(c) => Effect(s.ReceiveData(c), [])
    case Ctl(control) => s.ReceiveControl(control)
  }

  function Without<T>(q: seq<T>, i: nat): seq<T>
    requires i < |q|
  {
    q[..i] + q[i + 1..]
  }

  /** Controls are not awaited, so one may still wait for the buffer when later frames have been sent. */
  predicate MayWait(frame: Frame) {
    frame.Ctl? && !frame.control.Eof?
  }

  /** All that is in front of a packet on its channel may wait. */
  predicate InTurn(q: seq<Packet>, i: nat)
    requires i < |q|
  {
    forall j :: 0 <= j < i && q[j].channel == q[i].channel ==> MayWait(q[j].frame)
  }

  predicate Arrives(me: Side, i: nat) {
    i < |me.inbox| && me.link == Some(me.inbox[i].channel) && InTurn(me.inbox, i)
  }

  predicate Binds(me: Side, c: nat, net: Net) {
    me.link.None? && c < net.channels && c !in me.had
  }

  function Move(me: Side, act: Act, net: Net): Moved {
    match act
    case Local(op) =>
      if !IsLocal(op) then Moved(me, [], net)
      else
        var e := Apply(me.s, op);
        Moved(me.(s := e.s,
                  via := if op.DoChain? && me.s.chain.AtSend? then me.link else me.via,
                  eofVia := if op.DoCloseDrained? && me.s.closer.Draining? then me.link else me.eofVia),
              Post(me.link, e.out), net)
    case TakeData =>
      if me.s.chain.Sending? && me.link.Some? && me.via == me.link
      then Moved(me.(s := me.s.SendOk()), [Packet(me.link.value, Data(me.s.chain.chunk))], net)
      else Moved(me, [], net)
    case RefuseData => Moved(me.(s := me.s.SendFailed()), [], net)
    case TakeEof =>
      if me.s.closer.SendingEof? && me.link.Some? && me.eofVia == me.link
      then Moved(me.(s := me.s.EofSettled(true).s), Post(me.link, me.s.EofSettled(true).out), net)
      else Moved(me, [], net)
    case RefuseEof => Moved(me.(s := me.s.EofSettled(false).s), [], net)
    case Deliver(i) =>
      if !Arrives(me, i) then Moved(me, [], net)
      else
        var e := Receive(me.s, me.inbox[i].frame);
        Moved(me.(s := e.s, inbox := Without(me.inbox, i)), Post(me.link, e.out), net)
    case Drop(i) =>
      if i < |me.inbox| && me.inbox[i].channel in net.dead
      then Moved(me.(inbox := Without(me.inbox, i)), [], net)
      else Moved(me, [], net)
    case Lose(c) => Moved(me, [], net.(dead := net.dead + {c}))
    case Unbind(graceMs) =>
      Moved(me.(link := None, s := me.s.PeerDisconnected(graceMs)), [],
            if me.link.Some? then net.(dead := net.dead + {me.link.value}) else net)
    case NewChannel => Moved(me, [], net.(channels := net.channels + 1))
    case Bind(c) =>
      if !Binds(me, c, net) then Moved(me, [], net)
      else
        var e := me.s.PeerReconnected();
        Moved(me.(s := e.s, link := Some(c), had := me.had + [c]), Post(Some(c), e.out), net)
  }

  function Do(p: Pair, act: Act): Pair {
    var m := Move(p.a, act, p.net);
    Pair(m.me, p.b.(inbox := p.b.inbox + m.sent), m.net)
  }

  function Swap(p: Pair): Pair {
    Pair(p.b, p.a, p.net)
  }

  /** A move of the first side, or of the second. */
  datatype Turn = First(act: Act) | Second(act: Act)

  function Take(p: Pair, turn: Turn): Pair {
    match turn
    case First(act) => Do(p, act)
    case Second(act) => Swap(Do(Swap(p), act))
  }

  function Run(p: Pair, turns: seq<Turn>): Pair
    decreases |turns|
  {
    if turns == [] then p else Run(Take(p, turns[0]), turns[1..])
  }

  function Fresh(window: nat, c: nat): Side {
    Side(NewStream(window), Some(c), None, None, [c], [])
  }

  predicate IsFresh(me: Side, net: Net) {
    me.link.Some? && me.link.value < net.channels && me == Fresh(me.s.window, me.link.value)
  }

  /** Two fresh streams, each opened on some channel, perhaps not on the same and perhaps on a dead one. */
  predicate Opening(p: Pair) {
    IsFresh(p.a, p.net) && IsFresh(p.b, p.net)
  }

  /** Two fresh streams on the first channel. */
  function Start(windowA: nat, windowB: nat): Pair {
    Pair(Fresh(windowA, 0), Fresh(windowB, 0), Net(1, {}))
  }

  lemma StartOpens(windowA: nat, windowB: nat)
    ensures Opening(Start(windowA, windowB))
  {
  }

  /** The same run with the sides exchanged. */
  function Mirror(turns: seq<Turn>): seq<Turn> {
    if turns == [] then []
    else [match turns[0] case First(act) => Second(act) case Second(act) => First(act)] + Mirror(turns[1..])
  }

  /** What holds of one side in every run holds of the other. */
  lemma {:induction false} MirroredRun(p: Pair, turns: seq<Turn>)
    ensures Run(Swap(p), Mirror(turns)) == Swap(Run(p, turns))
    decreases |turns|
  {
    if turns == [] {
    } else {
      MirroredRun(Take(p, turns[0]), turns[1..]);
      assert Mirror(turns)[1..] == Mirror(turns[1..]);
      assert Swap(Swap(p)) == p;
      assert Take(Swap(p), Mirror(turns)[0]) == Swap(Take(p, turns[0]));
    }
  }

  // ----- what is on the way -----

  /** Data bytes travelling on a channel. */
  function DataSize(q: seq<Packet>, channel: nat): nat {
    if q == [] then 0
    else (if q[0].channel == channel && q[0].frame.Data? then |q[0].frame.chunk| else 0) + DataSize(q[1..], channel)
  }

  function AckOf(control: Control): nat {
    if control.Ack? && control.count > 0 then control.count else 0
  }

  function AckSum(out: seq<Control>): nat {
    if out == [] then 0 else AckOf(out[0]) + AckSum(out[1..])
  }

  /** Bytes acknowledged by acknowledgements travelling on a channel. */
  function AckSize(q: seq<Packet>, channel: nat): nat {
    if q == [] then 0
    else (if q[0].channel == channel && q[0].frame.Ctl? then AckOf(q[0].frame.control) else 0) + AckSize(q[1..], channel)
  }

  function DataChunks(q: seq<Packet>): seq<Chunk> {
    if q == [] then []
    else (if q[0].frame.Data? then [q[0].frame.chunk] else []) + DataChunks(q[1..])
  }

  predicate HasEof(q: seq<Packet>) {
    exists i :: 0 <= i < |q| && q[i].frame == Ctl(Eof)
  }

  /** No data follows an eof. */
  ghost predicate EofLast(q: seq<Packet>) {
    forall i, j :: 0 <= i < j < |q| && q[i].frame == Ctl(Eof) ==> !q[j].frame.Data?
  }

  lemma {:induction false} DataSizeAppend(q: seq<Packet>, r: seq<Packet>, channel: nat)
    ensures DataSize(q + r, channel) == DataSize(q, channel) + DataSize(r, channel)
  {
    if q == [] {
      assert q + r == r;
    } else {
      assert (q + r)[1..] == q[1..] + r;
      DataSizeAppend(q[1..], r, channel);
    }
  }

  lemma {:induction false} AckSizeAppend(q: seq<Packet>, r: seq<Packet>, channel: nat)
    ensures AckSize(q + r, channel) == AckSize(q, channel) + AckSize(r, channel)
  {
    if q == [] {
      assert q + r == r;
    } else {
      assert (q + r)[1..] == q[1..] + r;
      AckSizeAppend(q[1..], r, channel);
    }
  }

  lemma {:induction false} DataChunksAppend(q: seq<Packet>, r: seq<Packet>)
    ensures DataChunks(q + r) == DataChunks(q) + DataChunks(r)
  {
    if q == [] {
      assert q + r == r;
    } else {
      assert (q + r)[1..] == q[1..] + r;
      DataChunksAppend(q[1..], r);
    }
  }

  lemma {:induction false} PostFacts(link: Option<nat>, out: seq<Control>, channel: nat)
    ensures DataChunks(Post(link, out)) == []
    ensures DataSize(Post(link, out), channel) == 0
    ensures AckSize(Post(link, out), channel) == if link == Some(channel) then AckSum(out) else 0
    ensures HasEof(Post(link, out)) ==> Eof in out
    ensures forall k :: 0 <= k < |Post(link, out)| ==>
      link == Some(Post(link, out)[k].channel) && Post(link, out)[k].frame.Ctl? &&
      Post(link, out)[k].frame.control in out
  {
    if link.Some? && out != [] {
      PostFacts(link, out[1..], channel);
      var q := Post(link, out);
      assert q[1..] == Post(link, out[1..]);
      forall k | 0 <= k < |q|
        ensures link == Some(q[k].channel) && q[k].frame.Ctl? && q[k].frame.control in out
      {
        if k > 0 {
          assert q[k] == q[1..][k - 1];
        }
      }
    }
  }
}
