/**
 * What the end of a stream is worth on any channel: after an eof the application is given
 * everything exactly when no chunk was lost or left behind on another channel, and in the order
 * in which it was sent exactly when the channels were also used in the sender's order.
 */
module PairLoss {
  import opened Bytes
  import opened StreamModel
  import opened StreamRuns
  import opened StreamPair
  import opened StreamBooks
  import opened PairCredit
  import opened PairDelivery
  import PairComplete
  import opened PairOrder
  import opened StreamEnd

  /** The move takes a chunk off the way that the stream does not get. */
  predicate LosesChunk(me: Side, act: Act, net: Net) {
    var removed := Removed(me, act, net);
    removed.Some? && removed.value < |me.inbox| && me.inbox[removed.value].frame.Data? && !Gets(me, act)
  }

  function LosesIn(p: Pair, turn: Turn): nat {
    if turn.Second? && LosesChunk(p.b, turn.act, p.net) then 1 else 0
  }

  /** The chunks of the first side that are lost in a run. */
  function Lost(p: Pair, turns: seq<Turn>): nat
    decreases |turns|
  {
    if turns == [] then 0 else LosesIn(p, turns[0]) + Lost(Take(p, turns[0]), turns[1..])
  }

  ghost predicate Accounted(snd: Side, rcv: Side, lost: nat) {
    |snd.s.handed| == |Received(rcv.s)| + |DataChunks(rcv.inbox)| + lost
  }

  lemma SenderAccounts(me: Side, other: Side, act: Act, net: Net, lost: nat)
    requires Safe(me.s) && Accounted(me, other, lost)
    ensures Accounted(Move(me, act, net).me, other.(inbox := other.inbox + Move(me, act, net).sent), lost)
  {
    SentKinds(me, act, net);
    SenderHanded(me, act, net);
    DataChunksAppend(other.inbox, Move(me, act, net).sent);
    if act.TakeData? && Takes(me) {
      DataChunksOne(Packet(me.link.value, Data(me.s.chain.chunk)));
    }
  }

  lemma ReceiverAccounts(me: Side, other: Side, act: Act, net: Net, lost: nat)
    requires Safe(me.s) && Accounted(other, me, lost)
    ensures Accounted(other, Move(me, act, net).me, lost + if LosesChunk(me, act, net) then 1 else 0)
  {
    ReceiverGot(me, act, net);
    InboxAfter(me, act, net);
    match Removed(me, act, net)
    case None =>
    case Some(i) => DataChunksWithout(me.inbox, i);
  }

  lemma TakeAccounts(p: Pair, turn: Turn, lost: nat)
    requires Inv(p) && Accounted(p.a, p.b, lost)
    ensures Accounted(Take(p, turn).a, Take(p, turn).b, lost + LosesIn(p, turn))
  {
    match turn
    case First(act) => SenderAccounts(p.a, p.b, act, p.net, lost);
    case Second(act) => ReceiverAccounts(p.b, p.a, act, p.net, lost);
  }

  lemma {:induction false} RunAccounts(p: Pair, turns: seq<Turn>, lost: nat)
    requires Inv(p) && Accounted(p.a, p.b, lost)
    ensures Accounted(Run(p, turns).a, Run(p, turns).b, lost + Lost(p, turns))
    decreases |turns|
  {
    if turns == [] {
    } else {
      TakeInv(p, turns[0]);
      TakeAccounts(p, turns[0], lost);
      RunAccounts(Take(p, turns[0]), turns[1..], lost + LosesIn(p, turns[0]));
    }
  }

  lemma OpeningAccounts(start: Pair)
    requires Opening(start)
    ensures Accounted(start.a, start.b, 0)
  {
    assert Received(start.b.s) == [];
  }

  // ----- an eof that arrives -----

  /** A frame arrives that is an eof, and the stream still reads. */
  predicate EofArrives(p: Pair, i: nat) {
    Arrives(p.b, i) && p.b.inbox[i].frame == Ctl(Eof) && !p.b.s.readClosed
  }

  /** The sender has ended its half, and the receiver takes nothing more. */
  ghost predicate Over(snd: Side, rcv: Side, accepted: seq<Chunk>, received: seq<Chunk>) {
    && Safe(snd.s) && Safe(rcv.s)
    && snd.s.closer.CloseDone? && rcv.s.readClosed
    && snd.s.accepted == accepted && Received(rcv.s) == received
  }

  lemma EofEnds(p: Pair, i: nat)
    requires Inv(p) && EofArrives(p, i)
    ensures p.a.s.accepted == p.a.s.handed
    ensures var q := Take(p, Second(Deliver(i))); Over(q.a, q.b, p.a.s.handed, Received(p.b.s))
  {
    var q := Take(p, Second(Deliver(i)));
    MoveSafe(p.b, Deliver(i), p.net);
    ReceiverGot(p.b, Deliver(i), p.net);
    assert HasEof(p.b.inbox);
    assert p.a.s.handed + [] + [] == p.a.s.handed;
    assert q.b.s == p.b.s.EndRead().MaybeFinalize();
    PairComplete.EofCloses(p.b.s);
  }

  lemma TakeStaysOver(p: Pair, turn: Turn, accepted: seq<Chunk>, received: seq<Chunk>)
    requires Over(p.a, p.b, accepted, received)
    ensures Over(Take(p, turn).a, Take(p, turn).b, accepted, received)
  {
    match turn
    case First(act) => MoveSafe(p.a, act, p.net);
    case Second(act) =>
      MoveSafe(p.b, act, p.net);
      ReceiverGot(p.b, act, p.net);
  }

  lemma {:induction false} StaysOver(p: Pair, turns: seq<Turn>, accepted: seq<Chunk>, received: seq<Chunk>)
    requires Over(p.a, p.b, accepted, received)
    ensures Over(Run(p, turns).a, Run(p, turns).b, accepted, received)
    decreases |turns|
  {
    if turns == [] {
    } else {
      TakeStaysOver(p, turns[0], accepted, received);
      StaysOver(Take(p, turns[0]), turns[1..], accepted, received);
    }
  }

  lemma EndedHasAll(rcv: Side)
    requires Safe(rcv.s) && rcv.s.reader.Ended?
    ensures rcv.s.yielded == Received(rcv.s)
  {
    assert rcv.s.yielded + [] + [] == rcv.s.yielded;
  }

  // ----- all numbers, in order -----

  /** The numbers below n, in order. */
  ghost predicate AllInOrder(numbers: seq<nat>, n: nat) {
    |numbers| == n && forall k :: 0 <= k < n ==> numbers[k] == k
  }

  lemma {:induction false} GrowAtLeast(numbers: seq<nat>, k: nat)
    requires Increasing(numbers) && k < |numbers|
    ensures numbers[k] >= k
  {
    if k > 0 {
      GrowAtLeast(numbers, k - 1);
    }
  }

  lemma {:induction false} GrowAtMost(numbers: seq<nat>, n: nat, k: nat)
    requires Increasing(numbers) && k < |numbers| && forall l :: 0 <= l < |numbers| ==> numbers[l] < n
    ensures numbers[k] + (|numbers| - 1 - k) < n
    decreases |numbers| - k
  {
    if k + 1 < |numbers| {
      GrowAtMost(numbers, n, k + 1);
    }
  }

  lemma AllIncreasing(numbers: seq<nat>, n: nat)
    requires forall l :: 0 <= l < |numbers| ==> numbers[l] < n
    ensures AllInOrder(numbers, n) <==> |numbers| == n && Increasing(numbers)
  {
    if |numbers| == n && Increasing(numbers) {
      forall k | 0 <= k < n
        ensures numbers[k] == k
      {
        GrowAtLeast(numbers, k);
        GrowAtMost(numbers, n, k);
      }
    }
  }

  lemma NumberedAll(p: Pair, tr: Trace, lost: nat)
    requires Tracked(p, tr) && Accounted(p.a, p.b, lost)
    ensures |Received(p.b.s)| == |p.a.s.handed| <==> lost == 0 && DataChunks(p.b.inbox) == []
    ensures AllInOrder(tr.got, |p.a.s.handed|) <==> lost == 0 && DataChunks(p.b.inbox) == [] && InSenderOrder(tr)
    ensures AllInOrder(tr.got, |p.a.s.handed|) ==> Received(p.b.s) == p.a.s.handed
  {
    AllIncreasing(tr.got, |p.a.s.handed|);
    OrderOfRounds(p, tr);
  }

  lemma RunFacts(start: Pair, turns: seq<Turn>)
    requires Opening(start)
    ensures Inv(Run(start, turns)) && Tracked(Run(start, turns), TraceOf(start, turns))
    ensures Accounted(Run(start, turns).a, Run(start, turns).b, Lost(start, turns))
  {
    Reaches(start, turns);
    OpeningInv(start);
    OpeningAccounts(start);
    RunAccounts(start, turns, 0);
  }

  lemma LaterFacts(p: Pair, i: nat, later: seq<Turn>)
    requires Inv(p) && EofArrives(p, i) && Run(Take(p, Second(Deliver(i))), later).b.s.reader.Ended?
    ensures var q := Run(Take(p, Second(Deliver(i))), later);
            q.b.s.yielded == Received(p.b.s) && q.a.s.accepted == p.a.s.handed
  {
    EofEnds(p, i);
    StaysOver(Take(p, Second(Deliver(i))), later, p.a.s.handed, Received(p.b.s));
    EndedHasAll(Run(Take(p, Second(Deliver(i))), later).b);
  }

  /** All chunks were given, and in order, exactly under the two conditions. */
  ghost predicate Exactly(tr: Trace, yielded: seq<Chunk>, accepted: seq<Chunk>, none: bool) {
    && (forall k :: 0 <= k < |tr.got| ==> tr.got[k] < |tr.rounds|)
    && (|yielded| == |accepted| <==> none)
    && (AllInOrder(tr.got, |accepted|) <==> none && InSenderOrder(tr))
    && (AllInOrder(tr.got, |accepted|) ==> yielded == accepted)
  }

  /**
   * In every run: once an eof has arrived, on whatever channel, the application that is told that
   * the stream is done has been given all chunks exactly when none was lost or left behind on
   * another channel, and all of them in the order in which they were sent exactly when, besides,
   * they arrived on the channels in the sender's order.
   */
  lemma EofIsCompleteExactly(start: Pair, turns: seq<Turn>, i: nat, later: seq<Turn>)
    requires Opening(start) && EofArrives(Run(start, turns), i)
    requires Run(Take(Run(start, turns), Second(Deliver(i))), later).b.s.reader.Ended?
    ensures var p := Run(start, turns);
            var q := Run(Take(p, Second(Deliver(i))), later);
            Exactly(TraceOf(start, turns), q.b.s.yielded, q.a.s.accepted,
                    Lost(start, turns) == 0 && DataChunks(p.b.inbox) == [])
  {
    RunFacts(start, turns);
    var p := Run(start, turns);
    NumberedAll(p, TraceOf(start, turns), Lost(start, turns));
    LaterFacts(p, i, later);
  }
}
