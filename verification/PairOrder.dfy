/**
 * The order of delivery, whatever is lost and replaced. The chunks that the first stream hands
 * over are numbered, and the numbers are followed through the channels: every chunk arrives at
 * most once, and the chunks arrive in the order in which they were sent exactly when the
 * channels on which they arrive were bound by the receiver in the sender's order.
 */
module PairOrder {
  import opened Bytes
  import opened StreamModel
  import opened StreamRuns
  import opened StreamPair
  import opened StreamBooks
  import opened PairCredit
  import opened PairDelivery

  /**
   * `way` numbers the packets on the way to the second side, `got` the chunks it received, in the
   * order in which it did. `rounds` says for each chunk handed over how many channels the sender
   * had been bound to before that of the chunk, and `at` the same of the receiver for each chunk
   * received.
   */
  datatype Trace = Trace(way: seq<nat>, got: seq<nat>, rounds: seq<nat>, at: seq<nat>)

  const NO_TRACE: Trace := Trace([], [], [], [])

  function Round(me: Side): nat {
    if me.had == [] then 0 else |me.had| - 1
  }

  function Copies(n: nat, k: nat): seq<nat> {
    if k == 0 then [] else [n] + Copies(n, k - 1)
  }

  /** What the first side sends is numbered by the chunks it has handed over. */
  function Sends(p: Pair, tr: Trace, act: Act): Trace {
    tr.(way := tr.way + Copies(|p.a.s.handed|, |Move(p.a, act, p.net).sent|),
        rounds := if act.TakeData? && Takes(p.a) then tr.rounds + [Round(p.a)] else tr.rounds)
  }

  /** What leaves the way is received, or lost. */
  function Leaves(p: Pair, tr: Trace, act: Act): Trace {
    match Removed(p.b, act, p.net)
    case None => tr
    case Some(i) =>
      if i >= |tr.way| then tr
      else if Gets(p.b, act) then tr.(way := Without(tr.way, i), got := tr.got + [tr.way[i]], at := tr.at + [Round(p.b)])
      else tr.(way := Without(tr.way, i))
  }

  function Step(p: Pair, tr: Trace, turn: Turn): Trace {
    match turn
    case First(act) => Sends(p, tr, act)
    case Second(act) => Leaves(p, tr, act)
  }

  function Follow(p: Pair, tr: Trace, turns: seq<Turn>): Trace
    decreases |turns|
  {
    if turns == [] then tr else Follow(Take(p, turns[0]), Step(p, tr, turns[0]), turns[1..])
  }

  /** The trace of a run from its beginning. */
  function TraceOf(start: Pair, turns: seq<Turn>): Trace {
    Follow(start, NO_TRACE, turns)
  }

  // ----- what the numbers mean -----

  /** The number of a packet is that of its chunk, and on the way numbers grow. */
  ghost predicate WayNumbered(snd: Side, rcv: Side, tr: Trace) {
    && |tr.way| == |rcv.inbox| && |tr.rounds| == |snd.s.handed|
    && (forall i :: 0 <= i < |rcv.inbox| && rcv.inbox[i].frame.Data? ==>
          tr.way[i] < |snd.s.handed| && snd.s.handed[tr.way[i]] == rcv.inbox[i].frame.chunk)
    && (forall i, j :: 0 <= i < j < |rcv.inbox| && rcv.inbox[i].frame.Data? && rcv.inbox[j].frame.Data? ==>
          tr.way[i] < tr.way[j])
  }

  /** The number of a received chunk is its own, and it is no longer on the way. */
  ghost predicate GotNumbered(snd: Side, rcv: Side, tr: Trace) {
    && |tr.got| == |Received(rcv.s)| == |tr.at| && |tr.way| == |rcv.inbox|
    && (forall k :: 0 <= k < |tr.got| ==> tr.got[k] < |snd.s.handed| && snd.s.handed[tr.got[k]] == Received(rcv.s)[k])
    && (forall k, l :: 0 <= k < l < |tr.got| ==> tr.got[k] != tr.got[l])
    && (forall k, i :: 0 <= k < |tr.got| && 0 <= i < |rcv.inbox| && rcv.inbox[i].frame.Data? ==> tr.got[k] != tr.way[i])
  }

  /** Which channels the numbers travelled on: the sender's rounds grow with the numbers, the receiver's with time. */
  ghost predicate Rounds(snd: Side, rcv: Side, tr: Trace) {
    && |tr.way| == |rcv.inbox| && |tr.at| == |tr.got|
    && snd.had != [] && rcv.had != []
    && (snd.link.Some? ==> snd.link.value == snd.had[|snd.had| - 1])
    && (rcv.link.Some? ==> rcv.link.value == rcv.had[|rcv.had| - 1])
    && (forall m, n :: 0 <= m < n < |tr.rounds| ==> tr.rounds[m] <= tr.rounds[n])
    && (forall n :: 0 <= n < |tr.rounds| ==> tr.rounds[n] < |snd.had|)
    && (forall i :: 0 <= i < |rcv.inbox| && rcv.inbox[i].frame.Data? ==>
          tr.way[i] < |tr.rounds| && snd.had[tr.rounds[tr.way[i]]] == rcv.inbox[i].channel)
    && (forall k, l :: 0 <= k < l < |tr.at| ==> tr.at[k] <= tr.at[l])
    && (forall k :: 0 <= k < |tr.at| ==>
          && tr.at[k] < |rcv.had| && tr.got[k] < |tr.rounds|
          && rcv.had[tr.at[k]] == snd.had[tr.rounds[tr.got[k]]])
  }

  ghost predicate Distinct(had: seq<nat>) {
    forall i, j :: 0 <= i < j < |had| ==> had[i] != had[j]
  }

  /** On one channel chunks arrive in order. */
  ghost predicate FirstInFirstOut(rcv: Side, tr: Trace) {
    && |tr.way| == |rcv.inbox| && |tr.at| == |tr.got|
    && (forall k :: 0 <= k < |tr.got| ==> tr.got[k] < |tr.rounds|)
    && (forall i :: 0 <= i < |rcv.inbox| && rcv.inbox[i].frame.Data? ==> tr.way[i] < |tr.rounds|)
    && (forall k, i :: 0 <= k < |tr.got| && 0 <= i < |rcv.inbox| && rcv.inbox[i].frame.Data? ==>
          tr.rounds[tr.got[k]] == tr.rounds[tr.way[i]] ==> tr.got[k] < tr.way[i])
    && (forall k, l :: 0 <= k < l < |tr.got| && tr.rounds[tr.got[k]] == tr.rounds[tr.got[l]] ==> tr.got[k] < tr.got[l])
  }

  ghost predicate Tracked(p: Pair, tr: Trace) {
    && WayNumbered(p.a, p.b, tr) && GotNumbered(p.a, p.b, tr)
    && Rounds(p.a, p.b, tr) && FirstInFirstOut(p.b, tr)
    && Distinct(p.a.had) && Distinct(p.b.had)
  }

  // ----- the sender moves -----

  lemma {:induction false} CopiesAre(n: nat, k: nat)
    ensures |Copies(n, k)| == k && forall i :: 0 <= i < k ==> Copies(n, k)[i] == n
  {
    if k > 0 {
      CopiesAre(n, k - 1);
    }
  }

  /** What the sender adds to the way: packets without data, or the chunk it hands over next. */
  ghost predicate Adds(snd: Side, t: Side, sent: seq<Packet>) {
    || (t.s.handed == snd.s.handed && NoData(sent))
    || (|sent| == 1 && sent[0].frame.Data? && snd.link == Some(sent[0].channel) && t.had == snd.had
        && t.s.handed == snd.s.handed + [sent[0].frame.chunk])
  }

  lemma SenderAdds(me: Side, act: Act, net: Net)
    requires Safe(me.s)
    ensures Adds(me, Move(me, act, net).me, Move(me, act, net).sent)
    ensures act.TakeData? && Takes(me) <==> Move(me, act, net).me.s.handed != me.s.handed
  {
    SentKinds(me, act, net);
    SenderHanded(me, act, net);
    assert me.s.handed + [] == me.s.handed;
  }

  lemma HadGrows(me: Side, act: Act, net: Net)
    requires Distinct(me.had) && me.had != []
    requires me.link.Some? ==> me.link.value == me.had[|me.had| - 1]
    ensures var t := Move(me, act, net).me;
            && me.had <= t.had && Distinct(t.had)
            && (t.link.Some? ==> t.link.value == t.had[|t.had| - 1])
  {
  }

  lemma WaySent(snd: Side, t: Side, rcv: Side, tr: Trace, sent: seq<Packet>, more: seq<nat>, rounds: seq<nat>)
    requires WayNumbered(snd, rcv, tr) && GotNumbered(snd, rcv, tr) && Adds(snd, t, sent)
    requires |more| == |sent| && forall i :: 0 <= i < |more| ==> more[i] == |snd.s.handed|
    requires |rounds| == |t.s.handed|
    ensures var u := Trace(tr.way + more, tr.got, rounds, tr.at);
            WayNumbered(t, rcv.(inbox := rcv.inbox + sent), u) && GotNumbered(t, rcv.(inbox := rcv.inbox + sent), u)
  {
  }

  lemma RoundsSent(snd: Side, t: Side, rcv: Side, tr: Trace, sent: seq<Packet>, more: seq<nat>, rounds: seq<nat>)
    requires WayNumbered(snd, rcv, tr) && Rounds(snd, rcv, tr) && Adds(snd, t, sent)
    requires |more| == |sent| && forall i :: 0 <= i < |more| ==> more[i] == |snd.s.handed|
    requires snd.had <= t.had && (t.link.Some? ==> t.link.value == t.had[|t.had| - 1])
    requires rounds == if t.s.handed != snd.s.handed then tr.rounds + [Round(snd)] else tr.rounds
    ensures Rounds(t, rcv.(inbox := rcv.inbox + sent), Trace(tr.way + more, tr.got, rounds, tr.at))
  {
  }

  lemma FifoSent(snd: Side, t: Side, rcv: Side, tr: Trace, sent: seq<Packet>, more: seq<nat>, rounds: seq<nat>)
    requires WayNumbered(snd, rcv, tr) && FirstInFirstOut(rcv, tr) && Adds(snd, t, sent)
    requires |more| == |sent| && forall i :: 0 <= i < |more| ==> more[i] == |snd.s.handed|
    requires tr.rounds <= rounds && |rounds| == |t.s.handed|
    ensures FirstInFirstOut(rcv.(inbox := rcv.inbox + sent), Trace(tr.way + more, tr.got, rounds, tr.at))
  {
  }

  lemma SenderTracks(snd: Side, t: Side, rcv: Side, tr: Trace, sent: seq<Packet>, more: seq<nat>, rounds: seq<nat>)
    requires WayNumbered(snd, rcv, tr) && GotNumbered(snd, rcv, tr) && Rounds(snd, rcv, tr) && FirstInFirstOut(rcv, tr)
    requires Adds(snd, t, sent) && more == Copies(|snd.s.handed|, |sent|)
    requires snd.had <= t.had && (t.link.Some? ==> t.link.value == t.had[|t.had| - 1])
    requires rounds == if t.s.handed != snd.s.handed then tr.rounds + [Round(snd)] else tr.rounds
    ensures var u, r := Trace(tr.way + more, tr.got, rounds, tr.at), rcv.(inbox := rcv.inbox + sent);
            WayNumbered(t, r, u) && GotNumbered(t, r, u) && Rounds(t, r, u) && FirstInFirstOut(r, u)
  {
    CopiesAre(|snd.s.handed|, |sent|);
    WaySent(snd, t, rcv, tr, sent, more, rounds);
    RoundsSent(snd, t, rcv, tr, sent, more, rounds);
    FifoSent(snd, t, rcv, tr, sent, more, rounds);
  }

  lemma FirstTracked(p: Pair, tr: Trace, act: Act)
    requires Inv(p) && Tracked(p, tr)
    ensures Tracked(Take(p, First(act)), Step(p, tr, First(act)))
  {
    var m := Move(p.a, act, p.net);
    SenderAdds(p.a, act, p.net);
    HadGrows(p.a, act, p.net);
    SenderTracks(p.a, m.me, p.b, tr, m.sent, Copies(|p.a.s.handed|, |m.sent|), Sends(p, tr, act).rounds);
  }

  // ----- the receiver moves -----

  /** The place, before the removal, of what is at a place after it. */
  function Place(i: nat, k: nat): nat {
    if k < i then k else k + 1
  }

  lemma Places<T>(q: seq<T>, i: nat)
    requires i < |q|
    ensures |Without(q, i)| == |q| - 1 && forall k :: 0 <= k < |q| - 1 ==> Without(q, i)[k] == q[Place(i, k)]
  {
  }

  /** A packet leaves the way without being received. */
  lemma LostNumbered(snd: Side, rcv: Side, t: Side, tr: Trace, i: nat)
    requires WayNumbered(snd, rcv, tr) && GotNumbered(snd, rcv, tr) && i < |rcv.inbox|
    requires t.inbox == Without(rcv.inbox, i) && Received(t.s) == Received(rcv.s)
    ensures WayNumbered(snd, t, tr.(way := Without(tr.way, i))) && GotNumbered(snd, t, tr.(way := Without(tr.way, i)))
  {
    Places(rcv.inbox, i);
    Places(tr.way, i);
  }

  lemma LostRounds(snd: Side, rcv: Side, t: Side, tr: Trace, i: nat)
    requires Rounds(snd, rcv, tr) && FirstInFirstOut(rcv, tr) && i < |rcv.inbox|
    requires t.inbox == Without(rcv.inbox, i) && rcv.had <= t.had && (t.link.Some? ==> t.link.value == t.had[|t.had| - 1])
    ensures Rounds(snd, t, tr.(way := Without(tr.way, i))) && FirstInFirstOut(t, tr.(way := Without(tr.way, i)))
  {
    Places(rcv.inbox, i);
    Places(tr.way, i);
  }

  /** A chunk is received. */
  lemma GotChunk(snd: Side, rcv: Side, t: Side, tr: Trace, i: nat, round: nat)
    requires WayNumbered(snd, rcv, tr) && GotNumbered(snd, rcv, tr) && i < |rcv.inbox| && rcv.inbox[i].frame.Data?
    requires t.inbox == Without(rcv.inbox, i) && Received(t.s) == Received(rcv.s) + [rcv.inbox[i].frame.chunk]
    ensures var u := tr.(way := Without(tr.way, i), got := tr.got + [tr.way[i]], at := tr.at + [round]);
            WayNumbered(snd, t, u) && GotNumbered(snd, t, u)
  {
    Places(rcv.inbox, i);
    Places(tr.way, i);
  }

  lemma GotRounds(snd: Side, rcv: Side, t: Side, tr: Trace, i: nat)
    requires Rounds(snd, rcv, tr) && i < |rcv.inbox| && rcv.inbox[i].frame.Data?
    requires rcv.link == Some(rcv.inbox[i].channel) && t.link == rcv.link && t.had == rcv.had
    requires t.inbox == Without(rcv.inbox, i)
    ensures Rounds(snd, t, tr.(way := Without(tr.way, i), got := tr.got + [tr.way[i]], at := tr.at + [Round(rcv)]))
  {
    Places(rcv.inbox, i);
    Places(tr.way, i);
  }

  /** Whatever is in front of a chunk that arrives, on its channel, is no chunk. */
  lemma NoChunkInFront(rcv: Side, i: nat, j: nat)
    requires Arrives(rcv, i) && rcv.inbox[i].frame.Data? && j < |rcv.inbox| && rcv.inbox[j].frame.Data?
    requires rcv.inbox[j].channel == rcv.inbox[i].channel
    ensures j >= i
  {
  }

  lemma GotFifo(snd: Side, rcv: Side, t: Side, tr: Trace, i: nat, round: nat)
    requires WayNumbered(snd, rcv, tr) && Rounds(snd, rcv, tr) && FirstInFirstOut(rcv, tr)
    requires Arrives(rcv, i) && rcv.inbox[i].frame.Data? && t.inbox == Without(rcv.inbox, i)
    ensures FirstInFirstOut(t, tr.(way := Without(tr.way, i), got := tr.got + [tr.way[i]], at := tr.at + [round]))
  {
    Places(rcv.inbox, i);
    Places(tr.way, i);
    forall k | 0 <= k < |t.inbox| && t.inbox[k].frame.Data? && tr.rounds[tr.way[i]] == tr.rounds[tr.way[Place(i, k)]]
      ensures tr.way[i] < tr.way[Place(i, k)]
    {
      NoChunkInFront(rcv, i, Place(i, k));
    }
  }

  ghost predicate Tracks(snd: Side, rcv: Side, tr: Trace) {
    WayNumbered(snd, rcv, tr) && GotNumbered(snd, rcv, tr) && Rounds(snd, rcv, tr) && FirstInFirstOut(rcv, tr)
  }

  lemma LostTracks(snd: Side, rcv: Side, t: Side, tr: Trace, i: nat)
    requires Tracks(snd, rcv, tr) && i < |rcv.inbox|
    requires t.inbox == Without(rcv.inbox, i) && Received(t.s) == Received(rcv.s)
    requires rcv.had <= t.had && (t.link.Some? ==> t.link.value == t.had[|t.had| - 1])
    ensures Tracks(snd, t, tr.(way := Without(tr.way, i)))
  {
    LostNumbered(snd, rcv, t, tr, i);
    LostRounds(snd, rcv, t, tr, i);
  }

  lemma GotTracks(snd: Side, rcv: Side, t: Side, tr: Trace, i: nat)
    requires Tracks(snd, rcv, tr) && Arrives(rcv, i) && rcv.inbox[i].frame.Data?
    requires t.inbox == Without(rcv.inbox, i) && Received(t.s) == Received(rcv.s) + [rcv.inbox[i].frame.chunk]
    requires t.link == rcv.link && t.had == rcv.had
    ensures Tracks(snd, t, tr.(way := Without(tr.way, i), got := tr.got + [tr.way[i]], at := tr.at + [Round(rcv)]))
  {
    GotChunk(snd, rcv, t, tr, i, Round(rcv));
    GotRounds(snd, rcv, t, tr, i);
    GotFifo(snd, rcv, t, tr, i, Round(rcv));
  }

  lemma ReceiverTracks(p: Pair, tr: Trace, act: Act)
    requires Inv(p) && Tracked(p, tr)
    ensures Tracks(p.a, Move(p.b, act, p.net).me, Leaves(p, tr, act))
  {
    var t := Move(p.b, act, p.net).me;
    ReceiverGot(p.b, act, p.net);
    InboxAfter(p.b, act, p.net);
    HadGrows(p.b, act, p.net);
    match Removed(p.b, act, p.net)
    case None => SameReceiver(p.a, p.b, t, tr);
    case Some(i) =>
      if Gets(p.b, act) {
        GotTracks(p.a, p.b, t, tr, i);
      } else {
        LostTracks(p.a, p.b, t, tr, i);
      }
  }

  lemma SecondTracked(p: Pair, tr: Trace, act: Act)
    requires Inv(p) && Tracked(p, tr)
    ensures Tracked(Take(p, Second(act)), Step(p, tr, Second(act)))
  {
    var m := Move(p.b, act, p.net);
    ReceiverTracks(p, tr, act);
    HadGrows(p.b, act, p.net);
    SenderUnmoved(p.a, m.me, Leaves(p, tr, act), m.sent);
  }

  lemma SameReceiver(snd: Side, rcv: Side, t: Side, tr: Trace)
    requires WayNumbered(snd, rcv, tr) && GotNumbered(snd, rcv, tr) && Rounds(snd, rcv, tr) && FirstInFirstOut(rcv, tr)
    requires t.inbox == rcv.inbox && Received(t.s) == Received(rcv.s)
    requires rcv.had <= t.had && (t.link.Some? ==> t.link.value == t.had[|t.had| - 1])
    ensures WayNumbered(snd, t, tr) && GotNumbered(snd, t, tr) && Rounds(snd, t, tr) && FirstInFirstOut(t, tr)
  {
  }

  /** Frames on the way to the sender do not matter. */
  lemma SenderUnmoved(snd: Side, rcv: Side, tr: Trace, sent: seq<Packet>)
    requires WayNumbered(snd, rcv, tr) && GotNumbered(snd, rcv, tr) && Rounds(snd, rcv, tr)
    ensures var t := snd.(inbox := snd.inbox + sent);
            WayNumbered(t, rcv, tr) && GotNumbered(t, rcv, tr) && Rounds(t, rcv, tr)
  {
  }

  // ----- every run -----

  lemma {:induction false} RunTracked(p: Pair, tr: Trace, turns: seq<Turn>)
    requires Inv(p) && Tracked(p, tr)
    ensures Inv(Run(p, turns)) && Tracked(Run(p, turns), Follow(p, tr, turns))
    decreases |turns|
  {
    if turns == [] {
    } else {
      TakeInv(p, turns[0]);
      match turns[0] {
        case First(act) => FirstTracked(p, tr, act);
        case Second(act) => SecondTracked(p, tr, act);
      }
      RunTracked(Take(p, turns[0]), Step(p, tr, turns[0]), turns[1..]);
    }
  }

  lemma OpeningTracked(start: Pair)
    requires Opening(start)
    ensures Tracked(start, NO_TRACE)
  {
    assert Received(start.b.s) == [];
  }

  lemma Reaches(start: Pair, turns: seq<Turn>)
    requires Opening(start)
    ensures Inv(Run(start, turns)) && Tracked(Run(start, turns), TraceOf(start, turns))
  {
    OpeningInv(start);
    OpeningTracked(start);
    RunTracked(start, NO_TRACE, turns);
  }

  /**
   * Every run, whatever is lost and replaced, in whatever order the two sides bind the channels:
   * each chunk that the application is given is one that was sent, whole, and no chunk is given
   * twice.
   */
  lemma AtMostOnce(start: Pair, turns: seq<Turn>)
    requires Opening(start)
    ensures var p, got := Run(start, turns), TraceOf(start, turns).got;
            && |p.b.s.yielded| <= |got|
            && (forall k :: 0 <= k < |p.b.s.yielded| ==>
                  got[k] < |p.a.s.accepted| && p.b.s.yielded[k] == p.a.s.accepted[got[k]])
            && (forall k, l :: 0 <= k < l < |got| ==> got[k] != got[l])
  {
    Reaches(start, turns);
    var p := Run(start, turns);
    assert p.b.s.yielded <= Received(p.b.s);
    assert p.a.s.handed <= p.a.s.accepted;
  }

  predicate Increasing(s: seq<nat>) {
    forall k, l :: 0 <= k < l < |s| ==> s[k] < s[l]
  }

  /** The channels on which chunks arrived were bound by the sender in the order in which they did. */
  ghost predicate InSenderOrder(tr: Trace)
    requires forall k :: 0 <= k < |tr.got| ==> tr.got[k] < |tr.rounds|
  {
    forall k, l :: 0 <= k < l < |tr.got| ==> tr.rounds[tr.got[k]] <= tr.rounds[tr.got[l]]
  }

  lemma OrderOfRounds(p: Pair, tr: Trace)
    requires Tracked(p, tr)
    ensures Increasing(tr.got) <==> InSenderOrder(tr)
  {
    if InSenderOrder(tr) {
      forall k, l | 0 <= k < l < |tr.got|
        ensures tr.got[k] < tr.got[l]
      {
        assert tr.rounds[tr.got[k]] <= tr.rounds[tr.got[l]];
      }
    }
  }

  /**
   * Every run: the chunks arrive in the order in which they were sent exactly when they arrive on
   * the channels in the order in which the sender was bound to these; and the receiver takes the
   * chunks of a channel when it is bound to it, one channel after the other.
   */
  lemma InOrderExactly(start: Pair, turns: seq<Turn>)
    requires Opening(start)
    ensures var p, tr := Run(start, turns), TraceOf(start, turns);
            && |tr.at| == |tr.got|
            && (forall k :: 0 <= k < |tr.got| ==>
                  && tr.got[k] < |tr.rounds| && tr.rounds[tr.got[k]] < |p.a.had| && tr.at[k] < |p.b.had|
                  && p.a.had[tr.rounds[tr.got[k]]] == p.b.had[tr.at[k]])
            && (forall k, l :: 0 <= k < l < |tr.at| ==> tr.at[k] <= tr.at[l])
            && (Increasing(tr.got) <==> InSenderOrder(tr))
  {
    Reaches(start, turns);
    OrderOfRounds(Run(start, turns), TraceOf(start, turns));
  }

  /** The receiver was bound to no two channels in the other order than the sender. */
  ghost predicate SameOrder(a: seq<nat>, b: seq<nat>) {
    forall i, j, k, l :: 0 <= i < |a| && 0 <= j < |a| && 0 <= k < l < |b| && a[i] == b[k] && a[j] == b[l] ==> i < j
  }

  lemma SameOrderIsSenderOrder(p: Pair, tr: Trace)
    requires Tracked(p, tr) && SameOrder(p.a.had, p.b.had)
    ensures InSenderOrder(tr)
  {
    forall k, l | 0 <= k < l < |tr.got|
      ensures tr.rounds[tr.got[k]] <= tr.rounds[tr.got[l]]
    {
      var i, j := tr.rounds[tr.got[k]], tr.rounds[tr.got[l]];
      assert p.a.had[i] == p.b.had[tr.at[k]] && p.a.had[j] == p.b.had[tr.at[l]];
      if tr.at[k] == tr.at[l] {
        assert i == j;
      }
    }
  }

  /** Chunks with growing numbers are a subsequence of what was sent. */
  lemma {:induction false} NumberedSubsequence(given: seq<Chunk>, numbers: seq<nat>, sent: seq<Chunk>, n: nat)
    requires |numbers| >= |given| && Increasing(numbers) && n <= |sent|
    requires forall k :: 0 <= k < |given| ==> n <= numbers[k] < |sent| && given[k] == sent[numbers[k]]
    ensures Subsequence(given, sent[n..])
    decreases |sent| - n
  {
    if given != [] {
      if numbers[0] == n {
        assert sent[n..][0] == given[0] && sent[n..][1..] == sent[n + 1..];
        NumberedSubsequence(given[1..], numbers[1..], sent, n + 1);
      } else {
        assert sent[n..][1..] == sent[n + 1..];
        NumberedSubsequence(given, numbers, sent, n + 1);
      }
    }
  }

  /**
   * In every run in which the receiver binds the channels in the sender's order, whatever is lost
   * and replaced, the application is given a subsequence of what the other sent.
   */
  lemma InOrderAtMostOnce(start: Pair, turns: seq<Turn>)
    requires Opening(start) && SameOrder(Run(start, turns).a.had, Run(start, turns).b.had)
    ensures Subsequence(Run(start, turns).b.s.yielded, Run(start, turns).a.s.accepted)
  {
    Reaches(start, turns);
    AtMostOnce(start, turns);
    var p, tr := Run(start, turns), TraceOf(start, turns);
    SameOrderIsSenderOrder(p, tr);
    OrderOfRounds(p, tr);
    NumberedSubsequence(p.b.s.yielded, tr.got, p.a.s.accepted, 0);
    assert p.a.s.accepted[0..] == p.a.s.accepted;
  }
}
