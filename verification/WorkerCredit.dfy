/**
 * The output credit between the network Worker and the page. The Worker posts what its stream
 * yields and counts what the page has not acknowledged; the page renders one message after
 * another and acknowledges each. Messages travel in order in both directions.
 */
module WorkerCredit {
  import opened Bytes

  const OUTPUT_HIGH_WATER_MARK: nat := 512 * 1024
  const OUTPUT_LOW_WATER_MARK: nat := 128 * 1024

  /** Where receiveLoop stands: at its stream, parked on the credit with a chunk, or just woken. */
  datatype Loop = AtStream | Parked(chunk: Chunk) | Woken(chunk: Chunk)

  /** `posted` is history: the chunks posted to the page. */
  datatype WorkerState = WorkerState(unacknowledged: int, loop: Loop, posted: seq<Chunk>)
  {
    /** The test of the inner loop, and what follows it. */
    function TryPost(chunk: Chunk): WorkerState {
      if unacknowledged > 0 && unacknowledged + |chunk| > OUTPUT_HIGH_WATER_MARK
      then this.(loop := Parked(chunk))
      else this.(loop := AtStream, unacknowledged := unacknowledged + |chunk|, posted := posted + [chunk])
    }

    function Receive(chunk: Chunk): WorkerState {
      if loop.AtStream? then TryPost(chunk) else this
    }

    function Resume(): WorkerState {
      if loop.Woken? then TryPost(loop.chunk) else this
    }

    function Wake(): WorkerState {
      if loop.Parked? then this.(loop := Woken(loop.chunk)) else this
    }

    function AcknowledgeOutput(bytes: int): WorkerState {
      if bytes <= 0 then this
      else
        var w := this.(unacknowledged := if unacknowledged > bytes then unacknowledged - bytes else 0);
        if w.unacknowledged <= OUTPUT_LOW_WATER_MARK then w.Wake() else w
    }

    function ResetOutputCredit(): WorkerState {
      this.(unacknowledged := 0).Wake()
    }
  }

  /** The count is no more than the high mark or the longest chunk, and a loop parks only on a count. */
  ghost predicate Within(w: WorkerState) {
    && 0 <= w.unacknowledged <= Larger(OUTPUT_HIGH_WATER_MARK, MaxLen(w.posted))
    && (w.loop.Parked? ==> w.unacknowledged > 0)
  }

  lemma StaysWithin(w: WorkerState, chunk: Chunk, bytes: int)
    requires Within(w)
    ensures Within(w.TryPost(chunk)) && Within(w.AcknowledgeOutput(bytes)) && Within(w.ResetOutputCredit())
  {
    SizeSnoc(w.posted, chunk);
  }

  class OutputCredit {
    var unacknowledgedOutputBytes: int
    var loop: Loop
    ghost var posted: seq<Chunk>

    ghost function State(): WorkerState
      reads this
    {
      WorkerState(unacknowledgedOutputBytes, loop, posted)
    }

    ghost predicate Valid()
      reads this
    {
      Within(State())
    }

    constructor ()
      ensures State() == WorkerState(0, AtStream, []) && Valid()
    {
      unacknowledgedOutputBytes, loop, posted := 0, AtStream, [];
    }

    /** The inner loop of receiveLoop up to its next await; the chunk that is to be posted now, if any. */
    method TryPost(chunk: Chunk) returns (message: Option<Chunk>)
      requires Valid()
      modifies this
      ensures State() == old(State()).TryPost(chunk)
      ensures posted == old(posted) + (match message case Some(c) => [c] case None => [])
      ensures Valid()
    {
      StaysWithin(State(), chunk, 0);
      if unacknowledgedOutputBytes > 0 && unacknowledgedOutputBytes + |chunk| > OUTPUT_HIGH_WATER_MARK {
        loop := Parked(chunk);
        return None;
      }
      unacknowledgedOutputBytes := unacknowledgedOutputBytes + |chunk|;
      loop := AtStream;
      posted := posted + [chunk];
      return Some(chunk);
    }

    method Wake()
      modifies this
      ensures State() == old(State()).Wake()
    {
      if loop.Parked? {
        loop := Woken(loop.chunk);
      }
    }

    method AcknowledgeOutput(bytes: int)
      requires Valid()
      modifies this
      ensures State() == old(State()).AcknowledgeOutput(bytes)
      ensures Valid()
    {
      StaysWithin(State(), [], bytes);
      if bytes <= 0 { return; }
      unacknowledgedOutputBytes := unacknowledgedOutputBytes - bytes;
      if unacknowledgedOutputBytes < 0 { unacknowledgedOutputBytes := 0; }
      if unacknowledgedOutputBytes <= OUTPUT_LOW_WATER_MARK { Wake(); }
    }

    method ResetOutputCredit()
      requires Valid()
      modifies this
      ensures State() == old(State()).ResetOutputCredit()
      ensures Valid()
    {
      StaysWithin(State(), [], 0);
      unacknowledgedOutputBytes := 0;
      Wake();
    }
  }

  // ----- Worker and page -----

  datatype Request = AckData(bytes: nat) | Stop

  /**
   * `toPage` and `toWorker` are the messages under way, oldest first; `chain` is what the page
   * has queued on its output chain. `arrived` and `rendered` are history: the chunks the
   * stream yielded, and those whose onData has settled, in either way.
   */
  datatype System = System(
    w: WorkerState,
    toPage: seq<Chunk>,
    chain: seq<Chunk>,
    toWorker: seq<Request>,
    stopped: bool,
    arrived: seq<Chunk>,
    rendered: seq<Chunk>)

  datatype Event =
    | StreamYields(chunk: Chunk)
    | LoopRuns
    | DataArrives
    | DataSettles
    | RequestArrives
    | PageStops

  /** What the Worker posted in this region is under way. */
  function Posting(s: System, w: WorkerState): System
    requires s.w.posted <= w.posted
  {
    s.(w := w, toPage := s.toPage + w.posted[|s.w.posted|..])
  }

  function Next(s: System, event: Event): System {
    match event
    case StreamYields(chunk) =>
      if s.w.loop.AtStream? then Posting(s.(arrived := s.arrived + [chunk]), s.w.Receive(chunk)) else s
    case LoopRuns => Posting(s, s.w.Resume())
    case DataArrives =>
      if s.toPage == [] then s else s.(toPage := s.toPage[1..], chain := s.chain + [s.toPage[0]])
    case DataSettles =>
      if s.chain == [] then s
      else
        s.(chain := s.chain[1..], rendered := s.rendered + [s.chain[0]],
           toWorker := if s.stopped then s.toWorker else s.toWorker + [AckData(|s.chain[0]|)])
    case RequestArrives =>
      if s.toWorker == [] then s
      else
        var rest := s.(toWorker := s.toWorker[1..]);
        (match s.toWorker[0]
         case AckData(bytes) => rest.(w := s.w.AcknowledgeOutput(bytes))
         case Stop => rest.(w := s.w.ResetOutputCredit()))
    case PageStops =>
      if s.stopped then s else s.(stopped := true, toWorker := s.toWorker + [Stop])
  }

  function Run(s: System, events: seq<Event>): System
    decreases |events|
  {
    if events == [] then s else Run(Next(s, events[0]), events[1..])
  }

  const START: System := System(WorkerState(0, AtStream, []), [], [], [], false, [], [])

  // ----- the invariant -----

  /** The bytes of the acknowledgements under way. */
  function Acknowledged(requests: seq<Request>): nat {
    if requests == [] then 0
    else (match requests[0] case AckData(n) => n case Stop => 0) + Acknowledged(requests[1..])
  }

  /** What the page still owes an acknowledgement for, or has acknowledged in a message under way. */
  function Outstanding(s: System): nat {
    Size(s.toPage) + Size(s.chain) + Acknowledged(s.toWorker)
  }

  function Larger(a: nat, b: nat): nat {
    if a < b then b else a
  }

  function Held(loop: Loop): seq<Chunk> {
    match loop
    case AtStream => []
    case Parked(c) => [c]
    case Woken(c) => [c]
  }

  /** The page stops once, and acknowledges nothing after that. */
  ghost predicate StopIsLast(s: System) {
    && (!s.stopped ==> Stop !in s.toWorker)
    && (forall i :: 0 <= i < |s.toWorker| - 1 ==> s.toWorker[i].AckData?)
    && (s.stopped && s.toWorker != [] ==> s.toWorker[|s.toWorker| - 1].Stop?)
  }

  ghost predicate CreditBooks(s: System) {
    && s.w.unacknowledged >= Acknowledged(s.toWorker)
    && (!s.stopped ==> s.w.unacknowledged == Outstanding(s))
    && Within(s.w)
  }

  ghost predicate NothingLost(s: System) {
    && s.w.posted == s.rendered + s.chain + s.toPage
    && s.arrived == s.w.posted + Held(s.w.loop)
  }

  ghost predicate Inv(s: System) {
    StopIsLast(s) && CreditBooks(s) && NothingLost(s)
  }

  lemma {:induction false} AcknowledgedAppend(a: seq<Request>, b: seq<Request>)
    ensures Acknowledged(a + b) == Acknowledged(a) + Acknowledged(b)
  {
    if a == [] {
      assert a + b == b;
    } else {
      AcknowledgedAppend(a[1..], b);
      assert (a + b)[1..] == a[1..] + b;
    }
  }

  lemma SizeSnoc(chunks: seq<Chunk>, c: Chunk)
    ensures Size(chunks + [c]) == Size(chunks) + |c|
    ensures MaxLen(chunks) <= MaxLen(chunks + [c]) && |c| <= MaxLen(chunks + [c])
  {
    SizeAppend(chunks, [c]);
    MaxLenAppend(chunks, [c]);
    assert Size([c]) == |c| + Size([]);
    assert MaxLen([c]) >= |c|;
  }

  lemma AcknowledgedSnoc(requests: seq<Request>, n: nat)
    ensures Acknowledged(requests + [AckData(n)]) == Acknowledged(requests) + n
    ensures Acknowledged(requests + [Stop]) == Acknowledged(requests)
  {
    AcknowledgedAppend(requests, [AckData(n)]);
    AcknowledgedAppend(requests, [Stop]);
    assert Acknowledged([AckData(n)]) == n + Acknowledged([]);
    assert Acknowledged([Stop]) == 0 + Acknowledged([]);
  }

  /** A chunk that the loop holds is posted, or kept. `arrived` counts it already. */
  lemma PostKeeps(s: System, chunk: Chunk)
    requires StopIsLast(s) && CreditBooks(s)
    requires s.w.posted == s.rendered + s.chain + s.toPage && s.arrived == s.w.posted + [chunk]
    ensures s.w.posted <= s.w.TryPost(chunk).posted && Inv(Posting(s, s.w.TryPost(chunk)))
  {
    var w := s.w.TryPost(chunk);
    if s.w.unacknowledged > 0 && s.w.unacknowledged + |chunk| > OUTPUT_HIGH_WATER_MARK {
      assert s.toPage + w.posted[|s.w.posted|..] == s.toPage;
    } else {
      assert w.posted[|s.w.posted|..] == [chunk];
      SizeSnoc(s.toPage, chunk);
      SizeSnoc(s.w.posted, chunk);
      assert s.rendered + s.chain + s.toPage + [chunk] == s.rendered + s.chain + (s.toPage + [chunk]);
      assert w.posted + [] == w.posted;
    }
  }

  lemma YieldKeeps(s: System, chunk: Chunk)
    requires Inv(s)
    ensures Inv(Next(s, StreamYields(chunk)))
  {
    if s.w.loop.AtStream? {
      assert s.w.posted + [] == s.w.posted;
      PostKeeps(s.(arrived := s.arrived + [chunk]), chunk);
    }
  }

  lemma LoopKeeps(s: System)
    requires Inv(s)
    ensures Inv(Next(s, LoopRuns))
  {
    if s.w.loop.Woken? {
      PostKeeps(s, s.w.loop.chunk);
    } else {
      assert s.toPage + s.w.posted[|s.w.posted|..] == s.toPage;
    }
  }

  lemma ArriveKeeps(s: System)
    requires Inv(s)
    ensures Inv(Next(s, DataArrives))
  {
    if s.toPage != [] {
      SizeSnoc(s.chain, s.toPage[0]);
      assert s.toPage == [s.toPage[0]] + s.toPage[1..];
      assert s.rendered + s.chain + ([s.toPage[0]] + s.toPage[1..]) == s.rendered + (s.chain + [s.toPage[0]]) + s.toPage[1..];
    }
  }

  lemma SettleKeeps(s: System)
    requires Inv(s)
    ensures Inv(Next(s, DataSettles))
  {
    if s.chain != [] {
      AcknowledgedSnoc(s.toWorker, |s.chain[0]|);
      assert s.chain == [s.chain[0]] + s.chain[1..];
      assert s.rendered + ([s.chain[0]] + s.chain[1..]) + s.toPage == (s.rendered + [s.chain[0]]) + s.chain[1..] + s.toPage;
    }
  }

  lemma RestOfRequests(s: System)
    requires StopIsLast(s) && s.toWorker != []
    ensures StopIsLast(s.(toWorker := s.toWorker[1..]))
    ensures s.toWorker[0].Stop? ==> s.toWorker[1..] == []
  {
    var rest := s.toWorker[1..];
    forall r | r in rest
      ensures r in s.toWorker
    {
    }
    forall i | 0 <= i < |rest| - 1
      ensures rest[i].AckData?
    {
      assert rest[i] == s.toWorker[i + 1];
    }
  }

  lemma AckKeepsBooks(s: System, bytes: nat, w: WorkerState)
    requires CreditBooks(s) && s.toWorker != [] && s.toWorker[0] == AckData(bytes)
    requires w == s.w.AcknowledgeOutput(bytes)
    ensures CreditBooks(s.(toWorker := s.toWorker[1..], w := w))
    ensures w.posted == s.w.posted && Held(w.loop) == Held(s.w.loop)
  {
    if bytes == 0 {
    } else if w.unacknowledged <= OUTPUT_LOW_WATER_MARK {
    } else {
    }
  }

  lemma ResetKeepsBooks(s: System, w: WorkerState)
    requires CreditBooks(s) && s.stopped && s.toWorker == [Stop]
    requires w == s.w.ResetOutputCredit()
    ensures CreditBooks(s.(toWorker := [], w := w))
    ensures w.posted == s.w.posted && Held(w.loop) == Held(s.w.loop)
  {
  }

  lemma RequestKeeps(s: System)
    requires Inv(s)
    ensures Inv(Next(s, RequestArrives))
  {
    if s.toWorker != [] {
      RestOfRequests(s);
      match s.toWorker[0] {
        case AckData(bytes) => AckKeepsBooks(s, bytes, s.w.AcknowledgeOutput(bytes));
        case Stop =>
          assert s.stopped && s.toWorker == [Stop];
          ResetKeepsBooks(s, s.w.ResetOutputCredit());
      }
    }
  }

  lemma StopKeeps(s: System)
    requires Inv(s)
    ensures Inv(Next(s, PageStops))
  {
    if !s.stopped {
      AcknowledgedSnoc(s.toWorker, 0);
      forall i | 0 <= i < |s.toWorker|
        ensures s.toWorker[i].AckData?
      {
        assert s.toWorker[i] in s.toWorker;
      }
    }
  }

  lemma NextKeeps(s: System, event: Event)
    requires Inv(s)
    ensures Inv(Next(s, event))
  {
    match event {
      case StreamYields(chunk) => YieldKeeps(s, chunk);
      case LoopRuns => LoopKeeps(s);
      case DataArrives => ArriveKeeps(s);
      case DataSettles => SettleKeeps(s);
      case RequestArrives => RequestKeeps(s);
      case PageStops => StopKeeps(s);
    }
  }

  lemma {:induction false} RunKeeps(s: System, events: seq<Event>)
    requires Inv(s)
    ensures Inv(Run(s, events))
    decreases |events|
  {
    if events == [] {
    } else {
      NextKeeps(s, events[0]);
      RunKeeps(Next(s, events[0]), events[1..]);
    }
  }

  lemma Reaches(events: seq<Event>)
    ensures Inv(Run(START, events))
  {
    RunKeeps(START, events);
  }

  // ----- what it gives -----

  /**
   * Until the page stops, the counter is exactly the bytes posted and not yet acknowledged at
   * the Worker, and never more than the high mark or the longest chunk, so what waits in the
   * page is bounded by the same.
   */
  lemma CounterIsExact(events: seq<Event>)
    requires !Run(START, events).stopped
    ensures var s := Run(START, events);
            && s.w.unacknowledged == Outstanding(s)
            && Size(s.toPage) + Size(s.chain) <= Larger(OUTPUT_HIGH_WATER_MARK, MaxLen(s.w.posted))
  {
    Reaches(events);
  }

  /** Every acknowledgement is for bytes that are still counted: the clamp at zero never acts. */
  lemma EveryAckIsOwed(events: seq<Event>)
    ensures var s := Run(START, events);
            s.toWorker != [] && s.toWorker[0].AckData? ==> s.toWorker[0].bytes <= s.w.unacknowledged
  {
    Reaches(events);
  }

  /** In every run the page renders what the stream yielded, in order and without a gap. */
  lemma RenderedInOrder(events: seq<Event>)
    ensures var s := Run(START, events);
            && s.rendered + s.chain + s.toPage + Held(s.w.loop) == s.arrived
            && Flatten(s.rendered) <= Flatten(s.arrived)
  {
    Reaches(events);
    var s := Run(START, events);
    assert s.arrived == s.rendered + (s.chain + s.toPage + Held(s.w.loop));
    FlattenPrefix(s.rendered, s.arrived);
  }

  // ----- a parked loop is woken -----

  /** An event that needs nothing but messages under way and an onData that settles. */
  predicate IsDelivery(event: Event) {
    event.DataArrives? || event.DataSettles? || event.RequestArrives?
  }

  function Pending(s: System): nat {
    3 * |s.toPage| + 2 * |s.chain| + |s.toWorker|
  }

  /** Something is still to be delivered as long as the loop is parked. */
  lemma ParkedHasPending(s: System)
    requires Inv(s) && !s.stopped && s.w.loop.Parked?
    ensures s.toWorker != [] || s.chain != [] || s.toPage != []
  {
  }

  /** A delivery for which something is there. */
  predicate Enabled(s: System, event: Event) {
    match event
    case RequestArrives => s.toWorker != []
    case DataSettles => s.chain != []
    case DataArrives => s.toPage != []
    case _ => false
  }

  /** A delivery keeps the loop parked or wakes it; it does not stop the page. */
  lemma DeliveryOf(s: System, event: Event)
    requires Inv(s) && !s.stopped && s.w.loop.Parked? && Enabled(s, event)
    ensures Pending(Next(s, event)) < Pending(s)
    ensures !Next(s, event).stopped && Next(s, event).w.loop in {s.w.loop, Woken(s.w.loop.chunk)}
  {
    match event {
      case RequestArrives => assert s.toWorker[0] in s.toWorker;
      case DataSettles =>
      case DataArrives =>
      case _ =>
    }
  }

  /**
   * From every reachable state with a parked loop, delivering what is under way wakes it: no
   * new bytes from the stream, no stop and no reset are needed.
   */
  lemma {:induction false} Unparks(s: System) returns (events: seq<Event>)
    requires Inv(s) && !s.stopped && s.w.loop.Parked?
    ensures |events| <= Pending(s) && forall i :: 0 <= i < |events| ==> IsDelivery(events[i])
    ensures Run(s, events).w.loop == Woken(s.w.loop.chunk)
    decreases Pending(s)
  {
    ParkedHasPending(s);
    var event := if s.toWorker != [] then RequestArrives else if s.chain != [] then DataSettles else DataArrives;
    DeliveryOf(s, event);
    NextKeeps(s, event);
    var t := Next(s, event);
    if t.w.loop.Parked? {
      var rest := Unparks(t);
      events := [event] + rest;
      assert events[1..] == rest;
    } else {
      events := [event];
      assert events[1..] == [];
    }
  }

  predicate Schedule(s: System, events: seq<Event>)
    decreases |events|
  {
    events == [] || (Enabled(s, events[0]) && Schedule(Next(s, events[0]), events[1..]))
  }

  /** And in whatever order things are delivered: more deliveries than there are pending wake the loop. */
  lemma {:induction false} EveryDeliveryUnparks(s: System, events: seq<Event>) returns (k: nat)
    requires Inv(s) && !s.stopped && s.w.loop.Parked? && Schedule(s, events) && |events| > Pending(s)
    ensures k <= |events| && Run(s, events[..k]).w.loop == Woken(s.w.loop.chunk)
    decreases |events|
  {
    DeliveryOf(s, events[0]);
    NextKeeps(s, events[0]);
    var t := Next(s, events[0]);
    if t.w.loop.Parked? {
      k := EveryDeliveryUnparks(t, events[1..]);
      k := k + 1;
      assert events[..k][0] == events[0] && events[..k][1..] == events[1..][..k - 1];
    } else {
      k := 1;
      assert events[..1][0] == events[0] && events[..1][1..] == [];
    }
  }

  /** Once everything is delivered and acknowledged, nothing is counted and the loop is not parked. */
  lemma QuietMeansRunning(events: seq<Event>)
    requires var s := Run(START, events); !s.stopped && s.toPage == [] && s.chain == [] && s.toWorker == []
    ensures Run(START, events).w.unacknowledged == 0 && !Run(START, events).w.loop.Parked?
  {
    Reaches(events);
  }
}
