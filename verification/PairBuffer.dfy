/**
 * The receiver's buffer in runs with losses. A new channel, and the `resume` that announces it,
 * make a sender forget what it counted as unacknowledged, while its peer may still hold those
 * bytes: the buffer can exceed the limit by just what was forgotten.
 */
module PairBuffer {
  import opened Bytes
  import opened StreamModel
  import opened StreamRuns
  import opened StreamPair
  import opened StreamBooks
  import opened PairCredit
  import opened PairDelivery

  // ----- on all channels -----

  function AllAcks(q: seq<Packet>): nat {
    if q == [] then 0 else (if q[0].frame.Ctl? then AckOf(q[0].frame.control) else 0) + AllAcks(q[1..])
  }

  function AllData(q: seq<Packet>): nat {
    Size(DataChunks(q))
  }

  lemma {:induction false} AllAcksAppend(q: seq<Packet>, r: seq<Packet>)
    ensures AllAcks(q + r) == AllAcks(q) + AllAcks(r)
  {
    if q == [] {
      assert q + r == r;
    } else {
      AllAcksAppend(q[1..], r);
      assert (q + r)[1..] == q[1..] + r;
    }
  }

  lemma AllDataAppend(q: seq<Packet>, r: seq<Packet>)
    ensures AllData(q + r) == AllData(q) + AllData(r)
  {
    DataChunksAppend(q, r);
    SizeAppend(DataChunks(q), DataChunks(r));
  }

  lemma {:induction false} AcksOfPost(link: Option<nat>, out: seq<Control>)
    ensures AllAcks(Post(link, out)) <= AckSum(out) && AllData(Post(link, out)) == 0
  {
    PostFacts(link, out, 0);
    if link.Some? && out != [] {
      AcksOfPost(link, out[1..]);
      assert Post(link, out)[1..] == Post(link, out[1..]);
    }
  }

  lemma OnePacket(packet: Packet)
    ensures AllData([packet]) == if packet.frame.Data? then |packet.frame.chunk| else 0
    ensures AllAcks([packet]) == if packet.frame.Ctl? then AckOf(packet.frame.control) else 0
  {
    DataChunksOne(packet);
    assert [packet][1..] == [];
    if packet.frame.Data? {
      SizeOne(packet.frame.chunk);
    }
  }

  lemma Leaves(q: seq<Packet>, x: seq<Packet>, one: seq<Packet>, y: seq<Packet>)
    requires q == (x + one) + y
    ensures AllData(q) == AllData(x + y) + AllData(one) && AllAcks(q) == AllAcks(x + y) + AllAcks(one)
  {
    AllDataAppend(x + one, y);
    AllDataAppend(x, one);
    AllDataAppend(x, y);
    AllAcksAppend(x + one, y);
    AllAcksAppend(x, one);
    AllAcksAppend(x, y);
  }

  lemma SplitAt<T>(q: seq<T>, i: nat)
    requires i < |q|
    ensures q == (q[..i] + [q[i]]) + q[i + 1..]
  {
  }

  /** A packet that leaves the way takes its bytes with it. */
  lemma PacketLeaves(q: seq<Packet>, i: nat)
    requires i < |q|
    ensures AllData(q) == AllData(Without(q, i)) + if q[i].frame.Data? then |q[i].frame.chunk| else 0
    ensures AllAcks(q) == AllAcks(Without(q, i)) + if q[i].frame.Ctl? then AckOf(q[i].frame.control) else 0
  {
    SplitAt(q, i);
    OnePacket(q[i]);
    Leaves(q, q[..i], [q[i]], q[i + 1..]);
  }

  // ----- what is forgotten -----

  /** The move makes the sender count from zero again. */
  predicate Resets(me: Side, act: Act, net: Net) {
    || (act.Bind? && Binds(me, act.channel, net) && me.s.status.Open? && me.s.connection.Reconnecting?)
    || (act.Deliver? && Arrives(me, act.index) && me.inbox[act.index].frame == Ctl(Resume))
  }

  /** What it had counted. */
  function Forgets(me: Side, act: Act, net: Net): nat {
    if Resets(me, act, net) && me.s.inFlight > 0 then me.s.inFlight else 0
  }

  function ForgetsIn(p: Pair, turn: Turn): nat {
    if turn.First? then Forgets(p.a, turn.act, p.net) else 0
  }

  function Forgotten(p: Pair, turns: seq<Turn>): nat
    decreases |turns|
  {
    if turns == [] then 0 else ForgetsIn(p, turns[0]) + Forgotten(Take(p, turns[0]), turns[1..])
  }

  function ResetsIn(p: Pair, turn: Turn): nat {
    if turn.First? && Resets(p.a, turn.act, p.net) then 1 else 0
  }

  function CountResets(p: Pair, turns: seq<Turn>): nat
    decreases |turns|
  {
    if turns == [] then 0 else ResetsIn(p, turns[0]) + CountResets(Take(p, turns[0]), turns[1..])
  }

  // ----- one move -----

  /** Bytes handed over that no acknowledgement has been processed for, on any channel. */
  function Unsettled(snd: Side, rcv: Side): nat {
    AllData(rcv.inbox) + Held(rcv.s) + AllAcks(snd.inbox)
  }

  function Counts(s: StreamState): int {
    Debt(s) + s.uncounted
  }

  ghost predicate Explained(snd: Side, rcv: Side, forgotten: nat) {
    Unsettled(snd, rcv) <= Counts(snd.s) + forgotten
  }

  lemma RefusalCounts(s: StreamState)
    ensures Counts(s.SendFailed()) >= Counts(s) && Held(s.SendFailed()) == Held(s)
  {
    if s.chain.Sending? {
      var t := s.(inFlight := s.Refunded(), chain := Broken);
      assert Counts(t) >= Counts(s) && Held(t) == Held(s);
      if s.status.Closed? || s.writeStatus.Shut? {
      } else {
        var u := s.(inFlight := s.Refunded(), chain := AtPeer(s.chain.chunk, false));
        assert Counts(u) >= Counts(s) && Held(u) == Held(s);
        DisconnectBooks(u, RECONNECT_GRACE_MS);
      }
    }
  }

  lemma ReconnectCounts(s: StreamState)
    ensures Counts(s.PeerReconnected().s) >=
            Counts(s) - if s.status.Open? && s.connection.Reconnecting? && s.inFlight > 0 then s.inFlight else 0
  {
    if s.chain.FlowParked? {} else if s.chain.PeerParked? {} else {}
  }

  lemma ResumeCounts(s: StreamState)
    ensures Counts(s.ReceiveControl(Resume).s) >= Counts(s) - if s.inFlight > 0 then s.inFlight else 0
  {
    if s.chain.FlowParked? {} else {}
  }

  lemma ControlCounts(s: StreamState, control: Control)
    ensures Counts(s.ReceiveControl(control).s) >=
            Counts(s) - AckOf(control) - if control == Resume && s.inFlight > 0 then s.inFlight else 0
  {
    ControlBooks(s, control);
    if control == Resume {
      ResumeCounts(s);
    }
  }

  lemma ArrivalCounts(me: Side, i: nat, net: Net)
    requires Safe(me.s) && Arrives(me, i)
    ensures var e := Receive(me.s, me.inbox[i].frame);
            Counts(e.s) - AllAcks(Without(me.inbox, i)) >= Counts(me.s) - AllAcks(me.inbox) - Forgets(me, Deliver(i), net)
  {
    PacketLeaves(me.inbox, i);
    match me.inbox[i].frame
    case Data(c) => DataBooks(me.s, c);
    case Ctl(control) => ControlCounts(me.s, control);
  }

  /** What a sender counts shrinks by acknowledgements that arrive and by what it forgets, and grows by what it sends. */
  lemma SenderCounts(me: Side, act: Act, net: Net)
    requires Safe(me.s)
    ensures var m := Move(me, act, net);
            Counts(m.me.s) - AllAcks(m.me.inbox) - AllData(m.sent) >= Counts(me.s) - AllAcks(me.inbox) - Forgets(me, act, net)
  {
    match act
    case Local(op) =>
      if IsLocal(op) {
        LocalBooks(me.s, op);
        AcksOfPost(me.link, Apply(me.s, op).out);
      }
    case TakeData =>
      if Takes(me) {
        SendBooks(me.s);
        SendChunks(me.s);
        OnePacket(Packet(me.link.value, Data(me.s.chain.chunk)));
      }
    case RefuseData => RefusalCounts(me.s);
    case TakeEof =>
      CloseBooks(me.s, true);
      AcksOfPost(me.link, me.s.EofSettled(true).out);
    case RefuseEof => CloseBooks(me.s, false);
    case Deliver(i) => SenderDelivery(me, i, net);
    case Drop(i) => if i < |me.inbox| { PacketLeaves(me.inbox, i); }
    case Unbind(graceMs) => DisconnectBooks(me.s, graceMs);
    case Bind(c) =>
      ReconnectCounts(me.s);
      AcksOfPost(Some(c), me.s.PeerReconnected().out);
    case Lose(c) =>
    case NewChannel =>
  }

  lemma Arrived(me: Side, i: nat, net: Net)
    requires Arrives(me, i)
    ensures var m, e := Move(me, Deliver(i), net), Receive(me.s, me.inbox[i].frame);
            m.me.s == e.s && m.me.inbox == Without(me.inbox, i) && m.sent == Post(me.link, e.out)
  {
  }

  lemma SenderDelivery(me: Side, i: nat, net: Net)
    requires Safe(me.s)
    ensures var m := Move(me, Deliver(i), net);
            Counts(m.me.s) - AllAcks(m.me.inbox) - AllData(m.sent) >= Counts(me.s) - AllAcks(me.inbox) - Forgets(me, Deliver(i), net)
  {
    if Arrives(me, i) {
      Arrived(me, i, net);
      ArrivalCounts(me, i, net);
      AcksOfPost(me.link, Receive(me.s, me.inbox[i].frame).out);
    }
  }

  lemma ReceiverArrival(me: Side, i: nat)
    requires Safe(me.s) && Arrives(me, i)
    ensures var e := Receive(me.s, me.inbox[i].frame);
            Held(e.s) + AllData(Without(me.inbox, i)) + AckSum(e.out) <= Held(me.s) + AllData(me.inbox)
  {
    PacketLeaves(me.inbox, i);
    match me.inbox[i].frame
    case Data(c) => DataBooks(me.s, c);
    case Ctl(control) => ControlBooks(me.s, control);
  }

  lemma ReceiverDelivery(me: Side, i: nat, net: Net)
    requires Safe(me.s)
    ensures var m := Move(me, Deliver(i), net);
            Held(m.me.s) + AllData(m.me.inbox) + AllAcks(m.sent) <= Held(me.s) + AllData(me.inbox)
  {
    if Arrives(me, i) {
      Arrived(me, i, net);
      ReceiverArrival(me, i);
      AcksOfPost(me.link, Receive(me.s, me.inbox[i].frame).out);
    }
  }

  /** What a receiver holds comes from the way, and goes as acknowledgements. */
  lemma ReceiverHolds(me: Side, act: Act, net: Net)
    requires Safe(me.s)
    ensures var m := Move(me, act, net);
            Held(m.me.s) + AllData(m.me.inbox) + AllAcks(m.sent) <= Held(me.s) + AllData(me.inbox)
  {
    match act
    case Local(op) =>
      if IsLocal(op) {
        LocalBooks(me.s, op);
        AcksOfPost(me.link, Apply(me.s, op).out);
      }
    case TakeData =>
      if Takes(me) {
        SendBooks(me.s);
        OnePacket(Packet(me.link.value, Data(me.s.chain.chunk)));
      }
    case RefuseData => RefusalCounts(me.s);
    case TakeEof =>
      CloseBooks(me.s, true);
      AcksOfPost(me.link, me.s.EofSettled(true).out);
    case RefuseEof => CloseBooks(me.s, false);
    case Deliver(i) => ReceiverDelivery(me, i, net);
    case Drop(i) => if i < |me.inbox| { PacketLeaves(me.inbox, i); }
    case Unbind(graceMs) => DisconnectBooks(me.s, graceMs);
    case Bind(c) =>
      ReconnectBooks(me.s);
      AcksOfPost(Some(c), me.s.PeerReconnected().out);
    case Lose(c) =>
    case NewChannel =>
  }

  lemma TakeExplained(p: Pair, turn: Turn, forgotten: nat)
    requires Inv(p) && Explained(p.a, p.b, forgotten)
    ensures var q := Take(p, turn);
            Explained(q.a, q.b, forgotten + ForgetsIn(p, turn))
  {
    match turn
    case First(act) =>
      SenderCounts(p.a, act, p.net);
      AllDataAppend(p.b.inbox, Move(p.a, act, p.net).sent);
    case Second(act) =>
      ReceiverHolds(p.b, act, p.net);
      AllAcksAppend(p.a.inbox, Move(p.b, act, p.net).sent);
  }

  // ----- every run -----

  lemma {:induction false} RunExplained(p: Pair, turns: seq<Turn>, forgotten: nat)
    requires Inv(p) && Explained(p.a, p.b, forgotten)
    ensures Explained(Run(p, turns).a, Run(p, turns).b, forgotten + Forgotten(p, turns)) && Inv(Run(p, turns))
    decreases |turns|
  {
    if turns == [] {
    } else {
      TakeInv(p, turns[0]);
      TakeExplained(p, turns[0], forgotten);
      RunExplained(Take(p, turns[0]), turns[1..], forgotten + ForgetsIn(p, turns[0]));
    }
  }

  lemma LimitGrows(s: StreamState, t: StreamState)
    requires Forward(s, t)
    ensures Limit(s) <= Limit(t)
  {
    MaxLenAppend(s.accepted, t.accepted[|s.accepted|..]);
    assert t.accepted == s.accepted + t.accepted[|s.accepted|..];
  }

  lemma TakeForward(p: Pair, turn: Turn)
    requires Inv(p)
    ensures Limit(p.a.s) <= Limit(Take(p, turn).a.s)
  {
    match turn
    case First(act) =>
      MoveSafe(p.a, act, p.net);
      LimitGrows(p.a.s, Take(p, turn).a.s);
    case Second(act) =>
  }

  lemma ForgetsLittle(p: Pair, turn: Turn, limit: nat)
    requires WithinWindow(p.a.s) && Limit(p.a.s) <= limit
    ensures ForgetsIn(p, turn) <= ResetsIn(p, turn) * limit
  {
  }

  lemma Distribute(m: nat, n: nat, limit: nat)
    ensures (m + n) * limit == m * limit + n * limit
  {
  }

  lemma {:induction false} LimitOfRun(p: Pair, turns: seq<Turn>)
    requires Inv(p)
    ensures Limit(p.a.s) <= Limit(Run(p, turns).a.s)
    decreases |turns|
  {
    if turns == [] {
    } else {
      TakeInv(p, turns[0]);
      TakeForward(p, turns[0]);
      LimitOfRun(Take(p, turns[0]), turns[1..]);
    }
  }

  lemma {:induction false} EachForgetsLittle(p: Pair, turns: seq<Turn>)
    requires Inv(p)
    ensures Forgotten(p, turns) <= CountResets(p, turns) * Limit(Run(p, turns).a.s)
    decreases |turns|
  {
    if turns == [] {
    } else {
      var q := Take(p, turns[0]);
      var limit := Limit(Run(p, turns).a.s);
      TakeInv(p, turns[0]);
      LimitOfRun(p, turns);
      EachForgetsLittle(q, turns[1..]);
      ForgetsLittle(p, turns[0], limit);
      Distribute(ResetsIn(p, turns[0]), CountResets(q, turns[1..]), limit);
    }
  }

  lemma OpeningExplained(start: Pair)
    requires Opening(start)
    ensures Explained(start.a, start.b, 0)
  {
  }

  lemma BufferIsExplained(snd: Side, rcv: Side, forgotten: nat)
    requires WithinWindow(snd.s) && Explained(snd, rcv, forgotten)
    ensures Size(rcv.s.items) <= HandingOver(snd.s) + Unsettled(snd, rcv) <= Limit(snd.s) + snd.s.uncounted + forgotten
  {
  }

  /**
   * In every run, whatever is lost and replaced: the bytes that are handed over and not settled,
   * and so the receiver's queue, exceed the limit at most by what was sent before `flow:1` was
   * processed and by what the sender forgot, at most the limit for every time it counted anew.
   * A run in which nothing is forgotten keeps the limit.
   */
  lemma BufferWithLosses(start: Pair, turns: seq<Turn>)
    requires Opening(start)
    ensures var p := Run(start, turns);
            && Size(p.b.s.items) <= HandingOver(p.a.s) + Unsettled(p.a, p.b)
            && HandingOver(p.a.s) + Unsettled(p.a, p.b) <= Limit(p.a.s) + p.a.s.uncounted + Forgotten(start, turns)
            && Forgotten(start, turns) <= CountResets(start, turns) * Limit(p.a.s)
            && (Forgotten(start, turns) == 0 ==> Size(p.b.s.items) <= Limit(p.a.s) + p.a.s.uncounted)
  {
    OpeningInv(start);
    OpeningExplained(start);
    RunExplained(start, turns, 0);
    EachForgetsLittle(start, turns);
    var p := Run(start, turns);
    BufferIsExplained(p.a, p.b, Forgotten(start, turns));
  }

  lemma {:induction false} ForgottenSnoc(p: Pair, turns: seq<Turn>, turn: Turn)
    ensures Forgotten(p, turns + [turn]) == Forgotten(p, turns) + ForgetsIn(Run(p, turns), turn)
    decreases |turns|
  {
    if turns == [] {
      assert [] + [turn] == [turn] && [turn][1..] == [];
      assert Forgotten(Take(p, turn), []) == 0;
    } else {
      ForgottenSnoc(Take(p, turns[0]), turns[1..], turn);
      assert (turns + [turn])[1..] == turns[1..] + [turn];
    }
  }

  lemma CalmForgetsNothing(p: Pair, turn: Turn)
    requires CalmPair(p) && Calm(turn.act)
    ensures ForgetsIn(p, turn) == 0
  {
    if turn.First? && turn.act.Deliver? && Arrives(p.a, turn.act.index) {
      assert CalmFrame(p.a.inbox[turn.act.index].frame);
    }
  }

  /** Nothing is forgotten in a run without loss or abort. */
  lemma {:induction false} NothingForgotten(p: Pair, turns: seq<Turn>)
    requires CalmPair(p) && LossFree(turns)
    ensures Forgotten(p, turns) == 0
    decreases |turns|
  {
    if turns == [] {
    } else {
      assert turns[0] in turns;
      CalmForgetsNothing(p, turns[0]);
      match turns[0] {
        case First(act) => DoCalm(p, act);
        case Second(act) => DoCalm(Swap(p), act);
      }
      assert forall turn :: turn in turns[1..] ==> turn in turns;
      NothingForgotten(Take(p, turns[0]), turns[1..]);
    }
  }
}
