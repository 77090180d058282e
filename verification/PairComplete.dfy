/**
 * When the end of a stream can be believed: an eof that arrives on the channel on which both
 * streams were opened, while it lives, means that the application is given everything, whatever
 * happens later.
 */
module PairComplete {
  import opened Bytes
  import opened StreamModel
  import opened StreamRuns
  import opened StreamPair
  import opened StreamBooks
  import opened PairCredit
  import opened PairDelivery
  import opened StreamEnd

  // ----- the first channel -----

  predicate OnChannel(me: Side, c: nat) {
    me.link == Some(c) && OneChannel(me.inbox, c)
  }

  /** While the first channel lives, what was handed over has arrived or is on the way, in order. */
  ghost predicate Whole(snd: Side, rcv: Side) {
    !rcv.s.readClosed ==> Received(rcv.s) + DataChunks(rcv.inbox) == snd.s.handed
  }

  ghost predicate FirstChannel(p: Pair, c: nat) {
    && Inv(p) && c < p.net.channels
    && (p.net.Live(c) ==> OnChannel(p.a, c) && OnChannel(p.b, c) && Whole(p.a, p.b) && Whole(p.b, p.a))
  }

  lemma WithoutOne(q: seq<Packet>, i: nat, c: nat)
    requires i < |q| && OneChannel(q, c)
    ensures OneChannel(Without(q, i), c)
  {
  }

  lemma StaysOnChannel(me: Side, act: Act, net: Net, c: nat)
    requires OnChannel(me, c) && Move(me, act, net).net.Live(c)
    ensures OnChannel(Move(me, act, net).me, c)
    ensures OneChannel(Move(me, act, net).sent, c)
  {
    SentOnLink(me, act, net);
    InboxAfter(me, act, net);
    if Removed(me, act, net).Some? {
      WithoutOne(me.inbox, Removed(me, act, net).value, c);
    }
  }

  lemma SenderWhole(me: Side, other: Side, act: Act, net: Net)
    requires Safe(me.s) && Whole(me, other)
    ensures Whole(Move(me, act, net).me, other.(inbox := other.inbox + Move(me, act, net).sent))
  {
    SentKinds(me, act, net);
    SenderHanded(me, act, net);
    DataChunksAppend(other.inbox, Move(me, act, net).sent);
    if act.TakeData? && Takes(me) {
      DataChunksOne(Packet(me.link.value, Data(me.s.chain.chunk)));
      assert Received(other.s) + (DataChunks(other.inbox) + [me.s.chain.chunk]) ==
             (Received(other.s) + DataChunks(other.inbox)) + [me.s.chain.chunk];
    } else {
      assert DataChunks(other.inbox) + [] == DataChunks(other.inbox);
      assert me.s.handed + [] == me.s.handed;
    }
  }

  /** Nothing is lost on the channel while it lives. */
  lemma InboxOfFirst(me: Side, act: Act, net: Net, c: nat)
    requires OnChannel(me, c) && net.Live(c)
    ensures Move(me, act, net).me.inbox ==
            if act.Deliver? && Arrives(me, act.index) then Without(me.inbox, act.index) else me.inbox
  {
  }

  lemma ReceiverWhole(me: Side, other: Side, act: Act, net: Net, c: nat)
    requires Safe(me.s) && OnChannel(me, c) && net.Live(c) && Whole(other, me)
    ensures Whole(other, Move(me, act, net).me)
  {
    MoveSafe(me, act, net);
    if !Move(me, act, net).me.s.readClosed {
      ReadingIsOpen(me.s);
      ReceiverGot(me, act, net);
      InboxOfFirst(me, act, net, c);
      if act.Deliver? && Arrives(me, act.index) {
        ArrivalExact(Received(me.s), me.inbox, act.index, c, other.s.handed);
      }
    }
  }

  lemma DoFirst(p: Pair, act: Act, c: nat)
    requires FirstChannel(p, c)
    ensures FirstChannel(Do(p, act), c)
  {
    DoInv(p, act);
    NetGrows(p.a, act, p.net);
    if Do(p, act).net.Live(c) {
      StaysOnChannel(p.a, act, p.net, c);
      SenderWhole(p.a, p.b, act, p.net);
      ReceiverWhole(p.a, p.b, act, p.net, c);
    }
  }

  lemma {:induction false} RunFirst(p: Pair, turns: seq<Turn>, c: nat)
    requires FirstChannel(p, c)
    ensures FirstChannel(Run(p, turns), c)
    decreases |turns|
  {
    if turns == [] {
    } else {
      match turns[0] {
        case First(act) => DoFirst(p, act, c);
        case Second(act) => DoFirst(Swap(p), act, c);
      }
      RunFirst(Take(p, turns[0]), turns[1..], c);
    }
  }

  lemma FreshWhole(w: nat, v: nat, c: nat)
    ensures Whole(Fresh(w, c), Fresh(v, c))
  {
    assert Received(NewStream(v)) + DataChunks([]) == [];
  }

  lemma OpeningFirst(start: Pair, c: nat)
    requires Opening(start) && start.a.link == start.b.link == Some(c)
    ensures FirstChannel(start, c)
  {
    OpeningInv(start);
    FreshWhole(start.a.s.window, start.b.s.window, c);
    FreshWhole(start.b.s.window, start.a.s.window, c);
  }

  // ----- an eof that arrives -----

  /** The sender has ended its half, and the receiver has got all of it. */
  ghost predicate Complete(snd: Side, rcv: Side) {
    && Safe(snd.s) && Safe(rcv.s)
    && snd.s.closer.CloseDone? && rcv.s.readClosed
    && Received(rcv.s) == snd.s.accepted
  }

  lemma SenderStaysComplete(me: Side, other: Side, act: Act, net: Net)
    requires Complete(me, other)
    ensures Complete(Move(me, act, net).me, other.(inbox := other.inbox + Move(me, act, net).sent))
  {
    MoveSafe(me, act, net);
  }

  lemma ReceiverStaysComplete(me: Side, other: Side, act: Act, net: Net)
    requires Complete(other, me)
    ensures Complete(other, Move(me, act, net).me)
  {
    MoveSafe(me, act, net);
    ReceiverGot(me, act, net);
  }

  lemma {:induction false} StaysComplete(p: Pair, turns: seq<Turn>)
    requires Complete(p.a, p.b)
    ensures Complete(Run(p, turns).a, Run(p, turns).b)
    decreases |turns|
  {
    if turns == [] {
    } else {
      match turns[0] {
        case First(act) => SenderStaysComplete(p.a, p.b, act, p.net);
        case Second(act) =>
          ReceiverStaysComplete(p.b, p.a, act, p.net);
          assert Complete(p.a.(inbox := p.a.inbox + Move(p.b, act, p.net).sent), Move(p.b, act, p.net).me);
      }
      StaysComplete(Take(p, turns[0]), turns[1..]);
    }
  }

  /** A frame of the first channel arrives that is an eof, and the channel lives and the stream still reads. */
  predicate EofIsNext(p: Pair, i: nat, c: nat) {
    p.net.Live(c) && Arrives(p.b, i) && p.b.inbox[i] == Packet(c, Ctl(Eof)) && !p.b.s.readClosed
  }

  lemma EofCompletes(p: Pair, i: nat, c: nat)
    requires FirstChannel(p, c) && EofIsNext(p, i, c)
    ensures Complete(Take(p, Second(Deliver(i))).a, Take(p, Second(Deliver(i))).b)
  {
    AllArrived(p, i, c);
    var t := Move(p.b, Deliver(i), p.net).me;
    MoveSafe(p.b, Deliver(i), p.net);
    ReceiverGot(p.b, Deliver(i), p.net);
    assert t.s == p.b.s.EndRead().MaybeFinalize();
    EofCloses(p.b.s);
  }

  /** When the eof is in turn, no chunk is behind or in front of it, and the sender has handed over all. */
  lemma AllArrived(p: Pair, i: nat, c: nat)
    requires FirstChannel(p, c) && EofIsNext(p, i, c)
    ensures p.a.s.closer.CloseDone? && Received(p.b.s) == p.a.s.handed == p.a.s.accepted
  {
    NextChunk(p.b.inbox, i, c);
    assert HasEof(p.b.inbox);
    assert DataChunks(p.b.inbox) == [];
    assert Received(p.b.s) + [] == Received(p.b.s);
    assert p.a.s.handed + [] + [] == p.a.s.handed;
  }

  lemma EofCloses(s: StreamState)
    ensures s.EndRead().MaybeFinalize().readClosed
  {
  }

  /**
   * In every run: once an eof has arrived on the channel on which both streams were opened, while
   * it lives, the application gets a prefix of what was sent, and is told that the stream is done
   * only with all of it; whatever is lost, aborted or replaced later.
   */
  lemma EofOnFirstChannel(start: Pair, c: nat, turns: seq<Turn>, i: nat, later: seq<Turn>)
    requires Opening(start) && start.a.link == start.b.link == Some(c)
    requires EofIsNext(Run(start, turns), i, c)
    ensures var q := Run(Take(Run(start, turns), Second(Deliver(i))), later);
            && q.b.s.yielded <= q.a.s.accepted
            && (q.b.s.reader.Ended? ==> q.b.s.yielded == q.a.s.accepted)
  {
    OpeningFirst(start, c);
    RunFirst(start, turns, c);
    var p := Run(start, turns);
    EofCompletes(p, i, c);
    StaysComplete(Take(p, Second(Deliver(i))), later);
  }
}
