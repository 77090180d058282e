/**
 * createStreamSender: payloads queue behind one another on a promise chain, and the producer
 * is paused at the high water mark and resumed at the low one.
 */
module PtySender {
  import opened Bytes

  datatype Signal = Pause | Resume

  /**
   * Where the operation at the front of the chain stands: none has started; its payload is
   * with the stream; it is over, in the given way, and still counted; or it is no longer
   * counted, and a failure has still to be recorded.
   */
  datatype Stage = Idle | Draining(payload: Chunk) | Settled(payload: Chunk, ok: bool) | Counted(ok: bool)

  /**
   * `waiting` are the payloads behind the front. `signals`, `queued` and `sent` are history:
   * the calls of onPause and onResume, the payloads accepted, and those given to the stream.
   */
  datatype SenderState = SenderState(
    high: nat,
    low: nat,
    stage: Stage,
    waiting: seq<Chunk>,
    queuedBytes: int,
    paused: bool,
    failed: bool,
    signals: seq<Signal>,
    queued: seq<Chunk>,
    sent: seq<Chunk>)
  {
    function UpdateFlowControl(): SenderState {
      if !paused && queuedBytes >= high then this.(paused := true, signals := signals + [Pause])
      else if paused && queuedBytes <= low then this.(paused := false, signals := signals + [Resume])
      else this
    }

    function Send(payload: Chunk): Result<SenderState, string> {
      if failed then Err("the sender has failed")
      else Ok(
        this.(queuedBytes := queuedBytes + |payload|, waiting := waiting + [payload], queued := queued + [payload])
        .UpdateFlowControl())
    }

    /** The next operation starts; `writable` says whether the stream takes its payload. */
    function Start(writable: bool): SenderState {
      if !stage.Idle? || waiting == [] then this
      else if failed || !writable then this.(waiting := waiting[1..], stage := Settled(waiting[0], false))
      else this.(waiting := waiting[1..], stage := Draining(waiting[0]), sent := sent + [waiting[0]])
    }

    /** The stream has drained, or failed to. */
    function Drained(ok: bool): SenderState {
      if !stage.Draining? then this else this.(stage := Settled(stage.payload, ok))
    }

    /** What is done when an operation is over, whatever its outcome. */
    function Count(): SenderState {
      if !stage.Settled? then this
      else this.(stage := Counted(stage.ok), queuedBytes := queuedBytes - |stage.payload|).UpdateFlowControl()
    }

    /** The first error is kept; the chain goes on. */
    function Record(): SenderState {
      if !stage.Counted? then this else this.(stage := Idle, failed := failed || !stage.ok)
    }
  }

  function NewSender(high: nat, low: nat): SenderState {
    SenderState(high, low, Idle, [], 0, false, false, [], [], [])
  }

  // ----- every run -----

  datatype Event = Sends(payload: Chunk) | Starts(writable: bool) | Drains(ok: bool) | Counts | Records

  function Apply(s: SenderState, event: Event): SenderState {
    match event
    case Sends(payload) => (match s.Send(payload) case Ok(t) => t case Err(_) => s)
    case Starts(writable) => s.Start(writable)
    case Drains(ok) => s.Drained(ok)
    case Counts => s.Count()
    case Records => s.Record()
  }

  function Run(s: SenderState, events: seq<Event>): SenderState
    decreases |events|
  {
    if events == [] then s else Run(Apply(s, events[0]), events[1..])
  }

  /** The payloads that are counted: the one at the front, until it is no longer, and those behind it. */
  function Unfinished(s: SenderState): seq<Chunk> {
    (match s.stage case Draining(payload) => [payload] case Settled(payload, _) => [payload] case _ => []) + s.waiting
  }

  /** No operation has failed so far, recorded or not. */
  predicate NoFailure(s: SenderState) {
    !s.failed && match s.stage case Settled(_, ok) => ok case Counted(ok) => ok case _ => true
  }

  /** Pause and resume strictly alternate. */
  predicate Alternating(signals: seq<Signal>) {
    forall i :: 0 <= i < |signals| ==> signals[i] == if i % 2 == 0 then Pause else Resume
  }

  /** All but the place of the count between the marks. */
  ghost predicate InBooks(s: SenderState) {
    && s.low < s.high
    && s.queuedBytes == Size(Unfinished(s))
    && Alternating(s.signals)
    && (s.paused <==> |s.signals| % 2 == 1)
    && s.sent <= s.queued
    && (NoFailure(s) ==> s.queued == s.sent + s.waiting)
  }

  ghost predicate Balanced(s: SenderState) {
    InBooks(s) && if s.paused then s.queuedBytes > s.low else s.queuedBytes < s.high
  }

  lemma FlowControlBalances(s: SenderState)
    requires InBooks(s)
    ensures Balanced(s.UpdateFlowControl())
  {
  }

  lemma SizeCons(payload: Chunk, more: seq<Chunk>)
    ensures Size([payload] + more) == |payload| + Size(more)
  {
    assert ([payload] + more)[1..] == more;
  }

  lemma SendBalances(s: SenderState, payload: Chunk)
    requires Balanced(s) && !s.failed
    ensures Balanced(s.Send(payload).value)
  {
    var t := s.(queuedBytes := s.queuedBytes + |payload|, waiting := s.waiting + [payload], queued := s.queued + [payload]);
    assert Unfinished(t) == Unfinished(s) + [payload];
    SizeAppend(Unfinished(s), [payload]);
    SizeCons(payload, []);
    assert [payload] + [] == [payload];
    assert s.sent + s.waiting + [payload] == s.sent + (s.waiting + [payload]);
    FlowControlBalances(t);
  }

  /** Moving a payload from what waits to what was sent. */
  lemma MoveOn(sent: seq<Chunk>, payload: Chunk, rest: seq<Chunk>, queued: seq<Chunk>)
    requires queued == sent + ([payload] + rest)
    ensures queued == (sent + [payload]) + rest && sent + [payload] <= queued
  {
    assert (sent + [payload]) + rest == queued;
  }

  /** The payload at the front is counted wherever it stands. */
  lemma FrontIsCounted(s: SenderState, t: SenderState)
    requires s.stage.Idle? && s.waiting != [] && t.waiting == s.waiting[1..]
    requires t.stage == Draining(s.waiting[0]) || t.stage == Settled(s.waiting[0], false)
    ensures Unfinished(t) == Unfinished(s)
  {
    assert s.waiting == [s.waiting[0]] + s.waiting[1..];
    assert [] + s.waiting == s.waiting;
  }

  lemma StartBalances(s: SenderState, writable: bool)
    requires Balanced(s)
    ensures Balanced(s.Start(writable))
  {
    if s.stage.Idle? && s.waiting != [] {
      FrontIsCounted(s, s.Start(writable));
      if !s.failed && writable {
        assert s.waiting == [s.waiting[0]] + s.waiting[1..];
        MoveOn(s.sent, s.waiting[0], s.waiting[1..], s.queued);
      }
    }
  }

  lemma CountBalances(s: SenderState)
    requires Balanced(s)
    ensures Balanced(s.Count())
  {
    if s.stage.Settled? {
      var t := s.(stage := Counted(s.stage.ok), queuedBytes := s.queuedBytes - |s.stage.payload|);
      SizeCons(s.stage.payload, s.waiting);
      assert Unfinished(t) == s.waiting;
      FlowControlBalances(t);
    }
  }

  lemma ApplyBalances(s: SenderState, event: Event)
    requires Balanced(s)
    ensures Balanced(Apply(s, event)) && Apply(s, event).high == s.high && Apply(s, event).low == s.low
  {
    match event {
      case Sends(payload) => if !s.failed { SendBalances(s, payload); }
      case Starts(writable) => StartBalances(s, writable);
      case Drains(ok) => if s.stage.Draining? { assert Unfinished(s.Drained(ok)) == Unfinished(s); }
      case Counts => CountBalances(s);
      case Records => if s.stage.Counted? { assert Unfinished(s.Record()) == Unfinished(s); }
    }
  }

  lemma {:induction false} RunBalances(s: SenderState, events: seq<Event>)
    requires Balanced(s)
    ensures Balanced(Run(s, events)) && Run(s, events).high == s.high && Run(s, events).low == s.low
    decreases |events|
  {
    if events == [] {
    } else {
      ApplyBalances(s, events[0]);
      RunBalances(Apply(s, events[0]), events[1..]);
    }
  }

  lemma NewBalances(high: nat, low: nat)
    requires low < high
    ensures Balanced(NewSender(high, low))
  {
    assert Unfinished(NewSender(high, low)) == [];
  }

  /**
   * In every run, whatever fails: the count is exactly the bytes of the unfinished payloads;
   * the producer runs below the high mark and is paused above the low one, and is paused and
   * resumed in turn; what the stream was given is a prefix of what was accepted; and once all
   * is settled nothing is counted and the producer runs.
   */
  lemma EveryRunBalanced(high: nat, low: nat, events: seq<Event>)
    requires low < high
    ensures var s := Run(NewSender(high, low), events);
            && Balanced(s)
            && (Unfinished(s) == [] ==> s.queuedBytes == 0 && !s.paused)
  {
    NewBalances(high, low);
    RunBalances(NewSender(high, low), events);
  }

  // ----- the object -----

  class StreamSender {
    const high: nat
    const low: nat
    var stage: Stage
    var waiting: seq<Chunk>
    var queuedBytes: int
    var paused: bool
    var failed: bool
    ghost var signals: seq<Signal>
    ghost var queued: seq<Chunk>
    ghost var sent: seq<Chunk>

    ghost function State(): SenderState
      reads this
    {
      SenderState(high, low, stage, waiting, queuedBytes, paused, failed, signals, queued, sent)
    }

    ghost predicate Valid()
      reads this
    {
      Balanced(State())
    }

    constructor (high: nat, low: nat)
      requires low < high
      ensures State() == NewSender(high, low) && Valid()
    {
      this.high, this.low := high, low;
      stage, waiting, queuedBytes, paused, failed := Idle, [], 0, false, false;
      signals, queued, sent := [], [], [];
      new;
      NewBalances(high, low);
    }

    method UpdateFlowControl()
      modifies this
      ensures State() == old(State()).UpdateFlowControl()
    {
      if !paused && queuedBytes >= high {
        paused := true;
        signals := signals + [Pause];
      } else if paused && queuedBytes <= low {
        paused := false;
        signals := signals + [Resume];
      }
    }

    method Send(payload: Chunk) returns (r: Result<bool, string>)
      requires Valid()
      modifies this
      ensures match old(State()).Send(payload)
              case Ok(s) => r.Ok? && State() == s
              case Err(e) => r == Err(e) && State() == old(State())
      ensures Valid()
    {
      ApplyBalances(State(), Sends(payload));
      if failed { return Err("the sender has failed"); }
      queuedBytes := queuedBytes + |payload|;
      waiting := waiting + [payload];
      queued := queued + [payload];
      UpdateFlowControl();
      return Ok(true);
    }

    method Start(writable: bool)
      requires Valid()
      modifies this
      ensures State() == old(State()).Start(writable) && Valid()
    {
      ApplyBalances(State(), Starts(writable));
      if !stage.Idle? || waiting == [] { return; }
      var payload := waiting[0];
      waiting := waiting[1..];
      if failed || !writable {
        stage := Settled(payload, false);
      } else {
        stage := Draining(payload);
        sent := sent + [payload];
      }
    }

    method Drained(ok: bool)
      requires Valid()
      modifies this
      ensures State() == old(State()).Drained(ok) && Valid()
    {
      ApplyBalances(State(), Drains(ok));
      if stage.Draining? { stage := Settled(stage.payload, ok); }
    }

    method Count()
      requires Valid()
      modifies this
      ensures State() == old(State()).Count() && Valid()
    {
      ApplyBalances(State(), Counts);
      if !stage.Settled? { return; }
      queuedBytes := queuedBytes - |stage.payload|;
      stage := Counted(stage.ok);
      UpdateFlowControl();
    }

    method Record()
      requires Valid()
      modifies this
      ensures State() == old(State()).Record() && Valid()
    {
      ApplyBalances(State(), Records);
      if !stage.Counted? { return; }
      if !stage.ok { failed := true; }
      stage := Idle;
    }
  }
}
