/**
 * Exactly when a parked sender is woken: from every reachable state every long enough list of
 * deliveries and of steps of a reading application wakes a sender that is not stuck, some such
 * step can always be taken, and none wakes one that is stuck. A receiver that is not yet bound
 * to the sender's channel has to be bound first. No new data, no timer and no new channel is
 * needed.
 */
module PairRelease {
  import opened Bytes
  import opened StreamModel
  import opened StreamRuns
  import opened StreamPair
  import opened StreamBooks
  import opened PairCredit
  import opened PairDelivery
  import opened PairProgress
  import opened PairWakeup
  import PairEnd

  /** A frame arrives at a side, or the receiver's application goes on. */
  predicate IsProgress(turn: Turn) {
    match turn
    case First(act) => act.Deliver?
    case Second(act) => act.Deliver? || act == Local(DoNext) || act == Local(DoReader)
  }

  /** A step of that kind that can be taken. */
  predicate Enabled(p: Pair, turn: Turn) {
    match turn
    case First(act) => act.Deliver? && Arrives(p.a, act.index)
    case Second(act) =>
      || (act.Deliver? && Arrives(p.b, act.index))
      || (act == Local(DoNext) && p.b.s.reader.Resting?)
      || (act == Local(DoReader) && (p.b.s.reader.Acking? || p.b.s.reader.Resolved?))
  }

  /** A joined pair whose first side is parked on the window and not stuck. */
  ghost predicate Waits(p: Pair, c: Chunk) {
    Known(p) && Joined(p) && p.a.s.chain == FlowParked(c) && !Stuck(p)
  }

  // ----- what is left to do -----

  function ControlWeight(control: Control): nat {
    if control.Ping? || control.Resume? then 2 else 1
  }

  function Weight(frame: Frame): nat {
    match frame
    case Data(_) => 6
    case Ctl(control) => ControlWeight(control)
  }

  function Load(q: seq<Packet>): nat {
    if q == [] then 0 else Weight(q[0].frame) + Load(q[1..])
  }

  function ReaderWeight(reader: Reader): nat {
    match reader
    case Resting(n) => if n > 0 then 4 else 1
    case Acking => 2
    case Resolved(_) => 5
    case _ => 0
  }

  function ToRead(s: StreamState): nat {
    4 * |s.items| + ReaderWeight(s.reader)
  }

  /** What the frames under way and the receiver's application can still cause. */
  function ToDo(p: Pair): nat {
    Load(p.a.inbox) + Load(p.b.inbox) + ToRead(p.b.s)
  }

  lemma {:induction false} LoadAppend(q: seq<Packet>, r: seq<Packet>)
    ensures Load(q + r) == Load(q) + Load(r)
  {
    if q == [] {
      assert q + r == r;
    } else {
      LoadAppend(q[1..], r);
      assert (q + r)[1..] == q[1..] + r;
    }
  }

  /** What a region posts weighs at most what the controls do. */
  lemma PostLoad(link: Option<nat>, out: seq<Control>)
    requires |out| <= 1
    ensures Load(Post(link, out)) <= if out == [] then 0 else ControlWeight(out[0])
  {
    if link.Some? && out != [] {
      assert Post(link, out) == [Packet(link.value, Ctl(out[0]))] + Post(link, out[1..]);
      assert out[1..] == [];
      assert Post(link, out) == [Packet(link.value, Ctl(out[0]))];
      assert Load([]) == 0;
    }
  }

  lemma ReceivedLoad(s: StreamState, frame: Frame)
    ensures |Receive(s, frame).out| <= 1
    ensures (if Receive(s, frame).out == [] then 0 else ControlWeight(Receive(s, frame).out[0])) < Weight(frame)
  {
  }

  lemma LoadOfThree(x: seq<Packet>, packet: Packet, y: seq<Packet>)
    ensures Load(x + ([packet] + y)) == Weight(packet.frame) + Load(x + y)
  {
    LoadAppend(x, [packet] + y);
    LoadAppend(x, y);
    assert ([packet] + y)[1..] == y;
  }

  lemma LoadWithout(q: seq<Packet>, i: nat)
    requires i < |q|
    ensures Load(q) == Weight(q[i].frame) + Load(Without(q, i))
  {
    var x, y := q[..i], q[i + 1..];
    assert q == x + ([q[i]] + y);
    LoadOfThree(x, q[i], y);
  }

  // ----- a frame arrives at the sender -----

  lemma SenderNotShut(s: StreamState)
    requires Safe(s) && s.chain.FlowParked? && s.status.Open?
    ensures !s.writeStatus.Shut? && !s.closer.CloseDone?
  {
  }

  /** A frame that is no abort leaves a parked sender open, and wakes it or leaves it parked. */
  lemma SenderReceives(s: StreamState, frame: Frame)
    requires Safe(s) && s.chain.FlowParked? && s.status.Open? && frame != Ctl(Abort)
    ensures Receive(s, frame).s.status.Open?
    ensures Receive(s, frame).s.chain == s.chain || Receive(s, frame).s.chain == AtFlow(s.chain.chunk)
  {
    SenderNotShut(s);
    match frame
    case Data(c) => if s.readClosed {} else if s.reader.Waiting? {} else {}
    case Ctl(control) =>
      match control
      case Ack(n) => if n <= 0 {} else {}
      case _ =>
  }

  /** A waking frame that is no abort lets a parked sender go on. */
  lemma WakingFrame(s: StreamState, frame: Frame)
    requires Safe(s) && s.chain.FlowParked? && s.status.Open? && Wakes(frame) && frame != Ctl(Abort)
    ensures Receive(s, frame).s.chain == AtFlow(s.chain.chunk)
  {
  }

  lemma WakeRemains(q: seq<Packet>, i: nat, channel: nat)
    requires i < |q| && WakeUnderWay(q, channel) && !Wakes(q[i].frame)
    ensures WakeUnderWay(Without(q, i), channel)
  {
    var k :| 0 <= k < |q| && q[k].channel == channel && Wakes(q[k].frame);
    assert Without(q, i)[if k < i then k else k - 1] == q[k];
  }

  /** A frame that arrives at the sender wakes it, or is gone and weighs more than what it caused. */
  lemma DeliveredAtSender(p: Pair, c: Chunk, i: nat)
    requires Waits(p, c) && Arrives(p.a, i)
    ensures var q := Take(p, First(Deliver(i)));
            q.a.s.chain == AtFlow(c) || (Waits(q, c) && ToDo(q) < ToDo(p))
  {
    var q := Take(p, First(Deliver(i)));
    TakeKnown(p, First(Deliver(i)));
    var frame := p.a.inbox[i].frame;
    NoSuchFrame(p.a.inbox, i);
    if Wakes(frame) {
      WakingFrame(p.a.s, frame);
    } else {
      SenderReceives(p.a.s, frame);
      ReceivedLoad(p.a.s, frame);
      LoadWithout(p.a.inbox, i);
      var sent := Post(p.a.link, Receive(p.a.s, frame).out);
      PostLoad(p.a.link, Receive(p.a.s, frame).out);
      LoadAppend(p.b.inbox, sent);
      assert q.a.inbox == Without(p.a.inbox, i) && q.b == p.b.(inbox := p.b.inbox + sent);
      if WakeUnderWay(p.a.inbox, p.a.link.value) {
        WakeRemains(p.a.inbox, i, p.a.link.value);
      }
    }
  }

  // ----- a frame arrives at the receiver -----

  /** A frame that ends nothing leaves the receiver open, and adds less than it weighed. */
  lemma ReceiverReceives(s: StreamState, frame: Frame)
    requires s.status.Open? && frame != Ctl(Abort) && frame != Ctl(Eof)
    ensures var e := Receive(s, frame);
            && e.s.status.Open? && (e.s.reader.Returned? <==> s.reader.Returned?)
            && |e.out| <= 1
            && ToRead(e.s) + (if e.out == [] then 0 else ControlWeight(e.out[0])) < ToRead(s) + Weight(frame)
  {
    match frame
    case Data(c) => if s.readClosed {} else if s.reader.Waiting? {} else {}
    case Ctl(control) =>
      match control
      case Ack(n) => if n <= 0 {} else {}
      case _ =>
  }

  lemma WakeGrows(q: seq<Packet>, r: seq<Packet>, channel: nat)
    requires WakeUnderWay(q, channel)
    ensures WakeUnderWay(q + r, channel)
  {
    var k :| 0 <= k < |q| && q[k].channel == channel && Wakes(q[k].frame);
    assert (q + r)[k] == q[k];
  }

  /** What the receiver does keeps the sender waiting, if it leaves the receiver open and its application in the loop. */
  lemma StillWaits(p: Pair, q: Pair, c: Chunk, out: seq<Packet>)
    requires Waits(p, c) && Known(q)
    requires q.a == p.a.(inbox := p.a.inbox + out) && q.net == p.net && q.b.link == p.b.link
    requires q.b.s.status.Open? && (q.b.s.reader.Returned? ==> p.b.s.reader.Returned?)
    ensures Waits(q, c)
  {
    if WakeUnderWay(p.a.inbox, p.a.link.value) {
      WakeGrows(p.a.inbox, out, p.a.link.value);
    }
  }

  lemma DeliveredAtReceiver(p: Pair, c: Chunk, i: nat)
    requires Waits(p, c) && Arrives(p.b, i)
    ensures var q := Take(p, Second(Deliver(i))); Waits(q, c) && ToDo(q) < ToDo(p)
  {
    var q := Take(p, Second(Deliver(i)));
    TakeKnown(p, Second(Deliver(i)));
    SenderNotShut(p.a.s);
    NoSuchFrame(p.b.inbox, i);
    var e := Receive(p.b.s, p.b.inbox[i].frame);
    ReceiverReceives(p.b.s, p.b.inbox[i].frame);
    PostLoad(p.b.link, e.out);
    LoadAppend(p.a.inbox, Post(p.b.link, e.out));
    LoadWithout(p.b.inbox, i);
    assert q.b == p.b.(s := e.s, inbox := Without(p.b.inbox, i)) && q.a == p.a.(inbox := p.a.inbox + Post(p.b.link, e.out));
    StillWaits(p, q, c, Post(p.b.link, e.out));
  }

  // ----- the application reads -----

  lemma PullsOn(s: StreamState)
    ensures var t := s.Pull();
            && t.status == s.status && !t.reader.Returned?
            && ToRead(t) <= if s.items != [] then 4 * |s.items| else 0
  {
    if s.items != [] {} else if s.readClosed {} else {}
  }

  /** A step of the application that can be taken leaves the stream open and the application in its loop. */
  lemma ReadsOn(s: StreamState, op: Op)
    requires (op.DoNext? && s.reader.Resting?) || (op.DoReader? && (s.reader.Acking? || s.reader.Resolved?))
    ensures var e := Apply(s, op);
            && e.s.status == s.status && !e.s.reader.Returned?
            && |e.out| <= 1
            && ToRead(e.s) + (if e.out == [] then 0 else ControlWeight(e.out[0])) < ToRead(s)
  {
    match s.reader
    case Resting(n) =>
      if n == 0 {
        PullsOn(s);
        PulledOn(s, Resting(0));
      }
    case Acking =>
      PullsOn(s);
      PulledOn(s, Acking);
    case Resolved(c) =>
    case _ =>
  }

  /** A pull leaves less to read than there was. */
  lemma PulledOn(s: StreamState, reader: Reader)
    requires s.reader == reader && (reader == Resting(0) || reader.Acking?)
    ensures ToRead(s.Pull()) < ToRead(s)
  {
    PullsOn(s);
  }

  lemma ReadAtReceiver(p: Pair, c: Chunk, op: Op)
    requires Waits(p, c) && (op.DoNext? || op.DoReader?) && Enabled(p, Second(Local(op)))
    ensures var q := Take(p, Second(Local(op))); Waits(q, c) && ToDo(q) < ToDo(p)
  {
    var q := Take(p, Second(Local(op)));
    TakeKnown(p, Second(Local(op)));
    ReadsOn(p.b.s, op);
    var e := Apply(p.b.s, op);
    PostLoad(p.b.link, e.out);
    LoadAppend(p.a.inbox, Post(p.b.link, e.out));
    assert q.b.s == e.s && q.b.inbox == p.b.inbox && q.b.link == p.b.link;
    assert q.a == p.a.(inbox := p.a.inbox + Post(p.b.link, e.out));
    StillWaits(p, q, c, Post(p.b.link, e.out));
  }

  /** Every step that can be taken wakes the sender or leaves less to do. */
  lemma ProgressWorks(p: Pair, c: Chunk, turn: Turn)
    requires Waits(p, c) && Enabled(p, turn)
    ensures var q := Take(p, turn);
            q.a.s.chain == AtFlow(c) || (Waits(q, c) && ToDo(q) < ToDo(p))
  {
    match turn
    case First(act) => DeliveredAtSender(p, c, act.index);
    case Second(act) =>
      if act.Deliver? {
        DeliveredAtReceiver(p, c, act.index);
      } else {
        ReadAtReceiver(p, c, act.op);
      }
  }

  // ----- some step can always be taken -----

  /** The oldest frame of a channel can arrive. */
  lemma {:induction false} OldestOn(q: seq<Packet>, k: nat) returns (i: nat)
    requires k < |q|
    ensures i <= k && q[i].channel == q[k].channel && InTurn(q, i)
    decreases k
  {
    if InTurn(q, k) {
      i := k;
    } else {
      var j :| 0 <= j < k && q[j].channel == q[k].channel;
      i := OldestOn(q, j);
    }
  }

  /** An application that holds unacknowledged bytes, or could take some, goes on. */
  lemma ApplicationReads(s: StreamState)
    requires Safe(s) && s.status.Open? && !s.readClosed && !s.reader.Returned? && Held(s) > 0
    ensures s.reader.Resting? || s.reader.Acking? || s.reader.Resolved?
  {
    match s.reader
    case Waiting =>
    case _ =>
  }

  lemma StillReads(p: Pair)
    requires Known(p) && p.a.s.chain.FlowParked? && p.a.s.status.Open? && p.b.s.status.Open?
    ensures !p.b.s.readClosed
  {
    SenderNotShut(p.a.s);
  }

  lemma SomeIsEnabled(p: Pair, c: Chunk) returns (turn: Turn)
    requires Waits(p, c)
    ensures Enabled(p, turn)
  {
    var channel := p.a.link.value;
    ParkedHasCredit(p.a, p.b, p.net);
    if WakeUnderWay(p.a.inbox, channel) {
      var k :| 0 <= k < |p.a.inbox| && p.a.inbox[k].channel == channel && Wakes(p.a.inbox[k].frame);
      var i := OldestOn(p.a.inbox, k);
      turn := First(Deliver(i));
    } else if DataUnderWay(p.b.inbox, channel) {
      var k :| 0 <= k < |p.b.inbox| && p.b.inbox[k].channel == channel && p.b.inbox[k].frame.Data?;
      var i := OldestOn(p.b.inbox, k);
      turn := Second(Deliver(i));
    } else {
      StillReads(p);
      ApplicationReads(p.b.s);
      turn := Second(Local(if p.b.s.reader.Resting? then DoNext else DoReader));
    }
  }

  // ----- so every schedule wakes -----

  /** A list of steps, each of which can be taken when its turn comes. */
  predicate Schedule(p: Pair, turns: seq<Turn>)
    decreases |turns|
  {
    turns == [] || (Enabled(p, turns[0]) && Schedule(Take(p, turns[0]), turns[1..]))
  }

  lemma {:induction false} ScheduleWakes(p: Pair, c: Chunk, turns: seq<Turn>) returns (k: nat)
    requires Waits(p, c) && Schedule(p, turns) && |turns| > ToDo(p)
    ensures k <= |turns| && Run(p, turns[..k]).a.s.chain == AtFlow(c)
    decreases |turns|
  {
    var q := Take(p, turns[0]);
    ProgressWorks(p, c, turns[0]);
    if q.a.s.chain == AtFlow(c) {
      k := 1;
      PrefixRuns(p, turns, 0);
      assert Run(q, turns[1..][..0]) == q;
    } else {
      k := ScheduleWakes(q, c, turns[1..]);
      PrefixRuns(p, turns, k);
      k := k + 1;
    }
  }

  lemma PrefixRuns(p: Pair, turns: seq<Turn>, k: nat)
    requires k < |turns|
    ensures Run(p, turns[..k + 1]) == Run(Take(p, turns[0]), turns[1..][..k])
  {
    RunCons(p, turns[0], turns[1..][..k]);
    assert turns[..k + 1] == [turns[0]] + turns[1..][..k];
  }

  lemma {:induction false} Released(p: Pair, c: Chunk) returns (turns: seq<Turn>)
    requires Waits(p, c)
    ensures Schedule(p, turns) && Run(p, turns).a.s.chain == AtFlow(c)
    decreases ToDo(p)
  {
    var turn := SomeIsEnabled(p, c);
    ProgressWorks(p, c, turn);
    var q := Take(p, turn);
    var rest := [];
    if q.a.s.chain == AtFlow(c) {
      assert Run(q, rest) == q;
    } else {
      rest := Released(q, c);
    }
    turns := [turn] + rest;
    RunCons(p, turn, rest);
    assert turns[1..] == rest;
  }

  // ----- a receiver that is not bound yet -----

  /** How the second side comes to be bound to the sender's channel. */
  function Binding(p: Pair): seq<Turn>
    requires p.a.link.Some?
  {
    var c := p.a.link.value;
    if p.b.link == Some(c) then []
    else if p.b.link.None? then [Second(Bind(c))]
    else [Second(Unbind(1)), Second(Bind(c))]
  }

  lemma BindingWakes(p: Pair, c: Chunk)
    requires Known(p) && Parked(p.a, p.b, p.net) && p.a.s.chain == FlowParked(c) && p.b.link.None?
    ensures Waits(Take(p, Second(Bind(p.a.link.value))), c)
  {
    var channel := p.a.link.value;
    var q := Take(p, Second(Bind(channel)));
    TakeKnown(p, Second(Bind(channel)));
    assert p.b.s.connection.Reconnecting?;
    assert channel !in p.b.had;
    var out := p.b.s.PeerReconnected().out;
    assert out == [Resume, Flow];
    var sent := Post(Some(channel), out);
    assert sent[0] == Packet(channel, Ctl(Resume));
    assert q.a == p.a.(inbox := p.a.inbox + sent);
    assert q.a.inbox[|p.a.inbox|].channel == channel && Wakes(q.a.inbox[|p.a.inbox|].frame);
  }

  lemma UnbindingKeepsParked(p: Pair)
    requires Known(p) && Parked(p.a, p.b, p.net) && p.b.link.Some? && p.b.link != p.a.link
    ensures var q := Take(p, Second(Unbind(1)));
            Known(q) && Parked(q.a, q.b, q.net) && q.a == p.a && q.b.link.None?
  {
    TakeKnown(p, Second(Unbind(1)));
    assert p.a.inbox + [] == p.a.inbox;
  }

  lemma ReboundWaits(p: Pair, c: Chunk)
    requires Known(p) && Parked(p.a, p.b, p.net) && p.a.s.chain == FlowParked(c) && p.b.link.Some? && p.b.link != p.a.link
    ensures Waits(Run(p, [Second(Unbind(1)), Second(Bind(p.a.link.value))]), c)
  {
    var bind := Second(Bind(p.a.link.value));
    var q := Take(p, Second(Unbind(1)));
    RunCons(p, Second(Unbind(1)), [bind]);
    RunCons(q, bind, []);
    UnbindingKeepsParked(p);
    BindingWakes(q, c);
  }

  /** A parked sender that is not stuck waits, once its peer is bound to its channel. */
  lemma BoundWaits(p: Pair, c: Chunk)
    requires Known(p) && Parked(p.a, p.b, p.net) && p.a.s.chain == FlowParked(c) && !Stuck(p)
    ensures Waits(Run(p, Binding(p)), c)
  {
    if p.b.link == p.a.link {
    } else if p.b.link.None? {
      RunCons(p, Second(Bind(p.a.link.value)), []);
      BindingWakes(p, c);
    } else {
      ReboundWaits(p, c);
    }
  }

  predicate AllProgress(turns: seq<Turn>) {
    forall i :: 0 <= i < |turns| ==> IsProgress(turns[i])
  }

  lemma {:induction false} ScheduleIsProgress(p: Pair, turns: seq<Turn>)
    requires Schedule(p, turns)
    ensures AllProgress(turns)
    decreases |turns|
  {
    if turns != [] {
      ScheduleIsProgress(Take(p, turns[0]), turns[1..]);
      assert forall i :: 1 <= i < |turns| ==> turns[i] == turns[1..][i - 1];
    }
  }

  /**
   * In every run: a sender parked on the window over a live channel, whose peer is open, is
   * woken by deliveries and reads alone, once its peer is bound to the channel; unless it is stuck.
   */
  lemma ParkedSenderIsWoken(start: Pair, turns: seq<Turn>) returns (more: seq<Turn>)
    requires Opening(start)
    requires var p := Run(start, turns); Parked(p.a, p.b, p.net) && !Stuck(p)
    ensures var p := Run(start, turns);
            Schedule(Run(p, Binding(p)), more) && Run(Run(p, Binding(p)), more).a.s.chain == AtFlow(p.a.s.chain.chunk)
  {
    Reaches(start, turns);
    var p := Run(start, turns);
    BoundWaits(p, p.a.s.chain.chunk);
    more := Released(Run(p, Binding(p)), p.a.s.chain.chunk);
  }

  /**
   * And whichever deliveries and reads are taken, in whatever order: no list of them that is
   * longer than what there is to do leaves the sender parked.
   */
  lemma EveryScheduleWakes(start: Pair, turns: seq<Turn>, more: seq<Turn>) returns (k: nat)
    requires Opening(start)
    requires var p := Run(start, turns);
             && Parked(p.a, p.b, p.net) && !Stuck(p)
             && Schedule(Run(p, Binding(p)), more) && |more| > ToDo(Run(p, Binding(p)))
    ensures var p := Run(start, turns);
            k <= |more| && Run(Run(p, Binding(p)), more[..k]).a.s.chain == AtFlow(p.a.s.chain.chunk)
  {
    Reaches(start, turns);
    var p := Run(start, turns);
    BoundWaits(p, p.a.s.chain.chunk);
    k := ScheduleWakes(Run(p, Binding(p)), p.a.s.chain.chunk, more);
  }

  // ----- and a stuck one never -----

  lemma DeliveryKeepsOpen(s: StreamState, frame: Frame)
    requires s.status.Open? && frame != Ctl(Abort) && frame != Ctl(Eof)
    ensures Receive(s, frame).s.status.Open?
  {
    match frame
    case Data(c) => if s.readClosed {} else if s.reader.Waiting? {} else {}
    case Ctl(control) =>
      match control
      case Ack(n) => if n <= 0 {} else {}
      case _ =>
  }

  lemma ProgressKeepsJoined(p: Pair, turn: Turn)
    requires Known(p) && Stuck(p) && IsProgress(turn)
    ensures Joined(Take(p, turn))
  {
    SenderNotShut(p.a.s);
    match turn
    case First(act) =>
      if Arrives(p.a, act.index) {
        NoSuchFrame(p.a.inbox, act.index);
        SenderReceives(p.a.s, p.a.inbox[act.index].frame);
      }
    case Second(act) =>
      if act.Deliver? {
        if Arrives(p.b, act.index) {
          NoSuchFrame(p.b.inbox, act.index);
          DeliveryKeepsOpen(p.b.s, p.b.inbox[act.index].frame);
        }
      } else {
        PairEnd.ReadingEndsNothing(p.b.s);
      }
  }

  lemma {:induction false} StuckIsNotReleased(p: Pair, turns: seq<Turn>)
    requires Known(p) && Stuck(p) && AllProgress(turns)
    ensures Run(p, turns).a.s.chain.FlowParked?
    decreases |turns|
  {
    if turns == [] {
    } else {
      ProgressKeepsJoined(p, turns[0]);
      TakeKnown(p, turns[0]);
      match turns[0] {
        case First(act) => StuckStaysOfSender(p, act);
        case Second(act) => StuckStaysOfReceiver(p, act);
      }
      assert forall i :: 0 <= i < |turns[1..]| ==> turns[1..][i] == turns[i + 1];
      StuckIsNotReleased(Take(p, turns[0]), turns[1..]);
    }
  }

  /** In every run a parked sender can be woken by deliveries and reads exactly when it is not stuck. */
  lemma WokenExactly(start: Pair, turns: seq<Turn>)
    requires Opening(start)
    requires var p := Run(start, turns); Parked(p.a, p.b, p.net)
    ensures var p := Run(start, turns);
            (exists more :: AllProgress(more) && Run(Run(p, Binding(p)), more).a.s.chain == AtFlow(p.a.s.chain.chunk))
            <==> !Stuck(p)
  {
    Reaches(start, turns);
    var p := Run(start, turns);
    if Stuck(p) {
      assert Run(p, Binding(p)) == p;
      forall more | AllProgress(more)
        ensures Run(p, more).a.s.chain.FlowParked?
      {
        StuckIsNotReleased(p, more);
      }
    } else {
      var more := ParkedSenderIsWoken(start, turns);
      ScheduleIsProgress(Run(p, Binding(p)), more);
    }
  }
}
