/**
 * How the endpoints and the pair of streams meet. Every move of a side of the pair that binds
 * it, unbinds it or brings it a frame is a call of its endpoint on its stream. In every run both
 * sides have the discipline that the endpoints keep; and whatever two endpoints with that
 * discipline do to their two streams, in whatever interleaving, is done by a run of the pair,
 * with any of the channels dead.
 */
module LinkHistory {
  import opened Bytes
  import opened StreamModel
  import opened StreamPair
  import L = StreamLinks

  function FrameOf(frame: Frame): L.Frame {
    match frame
    case Data(c) => L.Data(c)
    case Ctl(_) => L.Control
  }

  /** The calls of a move on its stream; a peer is named by its channel. */
  function CallsOf(me: Side, act: Act, net: Net): seq<L.Call> {
    match act
    case Bind(c) => if Binds(me, c, net) then [L.Rebound(c)] else []
    case Unbind(_) => if me.link.Some? then [L.Lost(me.link.value)] else []
    case Deliver(i) =>
      if Arrives(me, i) then [L.Delivered(me.inbox[i].channel, FrameOf(me.inbox[i].frame))] else []
    case _ => []
  }

  /** A call on the first stream, or on the second. */
  datatype Event = OfFirst(call: L.Call) | OfSecond(call: L.Call)

  function EventsOf(p: Pair, turn: Turn): seq<Event> {
    match turn
    case First(act) => if CallsOf(p.a, act, p.net) == [] then [] else [OfFirst(CallsOf(p.a, act, p.net)[0])]
    case Second(act) => if CallsOf(p.b, act, p.net) == [] then [] else [OfSecond(CallsOf(p.b, act, p.net)[0])]
  }

  /** What is done to the two streams in a run, in order. */
  function History(p: Pair, turns: seq<Turn>): seq<Event>
    decreases |turns|
  {
    if turns == [] then [] else EventsOf(p, turns[0]) + History(Take(p, turns[0]), turns[1..])
  }

  function OnFirst(events: seq<Event>): seq<L.Call> {
    if events == [] then []
    else
      var last := events[|events| - 1];
      OnFirst(events[..|events| - 1]) + if last.OfFirst? then [last.call] else []
  }

  function OnSecond(events: seq<Event>): seq<L.Call> {
    if events == [] then []
    else
      var last := events[|events| - 1];
      OnSecond(events[..|events| - 1]) + if last.OfSecond? then [last.call] else []
  }

  lemma OnSnoc(events: seq<Event>, event: Event)
    ensures OnFirst(events + [event]) == OnFirst(events) + if event.OfFirst? then [event.call] else []
    ensures OnSecond(events + [event]) == OnSecond(events) + if event.OfSecond? then [event.call] else []
  {
    var all := events + [event];
    assert all[..|all| - 1] == events && all[|all| - 1] == event;
  }

  // ----- every run has the discipline -----

  /** A side is bound as its calls say, and has had the channels that they bound. */
  ghost predicate Matches(me: Side, log: seq<L.Call>) {
    && log != [] && L.Disciplined(log) && L.Bound(log) == me.link
    && forall c: nat :: c in L.Binders(log) <==> c in me.had
  }

  lemma MoveMatches(me: Side, act: Act, net: Net, log: seq<L.Call>)
    requires Matches(me, log)
    ensures |CallsOf(me, act, net)| <= 1
    ensures Matches(Move(me, act, net).me, log + CallsOf(me, act, net))
  {
    var calls := CallsOf(me, act, net);
    if calls == [] {
      assert log + calls == log;
      QuietMove(me, act, net);
    } else {
      L.Snoc(log, calls[0]);
      assert calls == [calls[0]];
    }
  }

  lemma QuietMove(me: Side, act: Act, net: Net)
    requires CallsOf(me, act, net) == []
    ensures Move(me, act, net).me.link == me.link && Move(me, act, net).me.had == me.had
  {
  }

  ghost predicate BothMatch(p: Pair, log: seq<Event>) {
    Matches(p.a, OnFirst(log)) && Matches(p.b, OnSecond(log))
  }

  lemma TakeMatches(p: Pair, turn: Turn, log: seq<Event>)
    requires BothMatch(p, log)
    ensures BothMatch(Take(p, turn), log + EventsOf(p, turn))
  {
    var events := EventsOf(p, turn);
    match turn {
      case First(act) => MoveMatches(p.a, act, p.net, OnFirst(log));
      case Second(act) => MoveMatches(p.b, act, p.net, OnSecond(log));
    }
    if events == [] {
      assert log + events == log;
      assert OnFirst(log) + [] == OnFirst(log) && OnSecond(log) + [] == OnSecond(log);
    } else {
      OnSnoc(log, events[0]);
      assert events == [events[0]];
      assert OnFirst(log) + [] == OnFirst(log) && OnSecond(log) + [] == OnSecond(log);
    }
  }

  lemma {:induction false} RunMatches(p: Pair, turns: seq<Turn>, log: seq<Event>)
    requires BothMatch(p, log)
    ensures BothMatch(Run(p, turns), log + History(p, turns))
    decreases |turns|
  {
    if turns == [] {
      assert log + [] == log;
    } else {
      var events, later := EventsOf(p, turns[0]), History(Take(p, turns[0]), turns[1..]);
      TakeMatches(p, turns[0], log);
      RunMatches(Take(p, turns[0]), turns[1..], log + events);
      assert log + (events + later) == (log + events) + later;
    }
  }

  /** Both streams are opened, each on its channel. */
  function Openings(p: Pair): seq<Event>
    requires p.a.link.Some? && p.b.link.Some?
  {
    [OfFirst(L.Opened(p.a.link.value)), OfSecond(L.Opened(p.b.link.value))]
  }

  lemma OpeningsMatch(start: Pair)
    requires Opening(start)
    ensures BothMatch(start, Openings(start))
  {
    var x, y := start.a.link.value, start.b.link.value;
    var one := [OfFirst(L.Opened(x))];
    assert [] + one == one;
    OnSnoc([], OfFirst(L.Opened(x)));
    OnSnoc(one, OfSecond(L.Opened(y)));
    assert one + [OfSecond(L.Opened(y))] == Openings(start);
    OpenedMatches(x);
    OpenedMatches(y);
    assert OnFirst(Openings(start)) == [L.Opened(x)] && OnSecond(Openings(start)) == [L.Opened(y)];
  }

  lemma OpenedMatches(x: nat)
    ensures L.Disciplined([L.Opened(x)]) && L.Bound([L.Opened(x)]) == Some(x) && L.Binders([L.Opened(x)]) == {x}
  {
    L.Snoc([], L.Opened(x));
    assert [] + [L.Opened(x)] == [L.Opened(x)];
  }

  /** In every run of the pair each side is bound as its calls say, and these have the discipline of the endpoints. */
  lemma HistoryIsDisciplined(start: Pair, turns: seq<Turn>)
    requires Opening(start)
    ensures var log, p := Openings(start) + History(start, turns), Run(start, turns);
            && L.Disciplined(OnFirst(log)) && L.Bound(OnFirst(log)) == p.a.link
            && L.Disciplined(OnSecond(log)) && L.Bound(OnSecond(log)) == p.b.link
  {
    OpeningsMatch(start);
    RunMatches(start, turns, Openings(start));
  }

  // ----- every two disciplined histories have a run -----

  /** The move that a call takes, if it takes one. */
  function ActOf(call: L.Call): Option<Act> {
    match call
    case Rebound(c) => Some(Bind(c))
    case Lost(_) => Some(Unbind(1))
    case _ => None
  }

  function TurnsOf(event: Event): seq<Turn> {
    match ActOf(event.call)
    case None => []
    case Some(act) => [if event.OfFirst? then First(act) else Second(act)]
  }

  function Play(events: seq<Event>): seq<Turn> {
    if events == [] then [] else Play(events[..|events| - 1]) + TurnsOf(events[|events| - 1])
  }

  /** The bindings and losses of a history. */
  function Moves(events: seq<Event>): seq<Event> {
    if events == [] then []
    else
      var last := events[|events| - 1];
      Moves(events[..|events| - 1]) + if ActOf(last.call).Some? then [last] else []
  }

  /** The channels that either endpoint has lost. */
  function LostIn(events: seq<Event>): set<nat> {
    if events == [] then {}
    else
      var last := events[|events| - 1];
      LostIn(events[..|events| - 1]) + if last.call.Lost? then {last.call.peer} else {}
  }

  /** A history of one stream that is opened on a channel, not yet left, or one that is still to be opened on it. */
  ghost predicate Plays(me: Side, calls: seq<L.Call>, origin: nat) {
    if calls == [] then me.link == Some(origin) && me.had == [origin]
    else Matches(me, calls) && calls[0] == L.Opened(origin)
  }

  lemma CallIsPlayed(me: Side, calls: seq<L.Call>, call: L.Call, origin: nat, net: Net)
    requires Plays(me, calls, origin) && L.Disciplined(calls + [call]) && call != L.Left
    requires calls == [] ==> call == L.Opened(origin)
    requires call.Rebound? ==> call.peer < net.channels
    ensures match ActOf(call)
            case None => Plays(me, calls + [call], origin)
            case Some(act) => CallsOf(me, act, net) == [call] && Plays(Move(me, act, net).me, calls + [call], origin)
  {
    L.Snoc(calls, call);
    if calls == [] {
      assert calls + [call] == [call];
      OpenedMatches(origin);
    } else {
      assert (calls + [call])[0] == calls[0];
      match ActOf(call)
      case None =>
      case Some(act) => MoveMatches(me, act, net, calls);
    }
  }

  /** A history of both streams in which each has the discipline and none is left. */
  ghost predicate Joint(events: seq<Event>, channels: nat) {
    && L.Disciplined(OnFirst(events)) && L.Disciplined(OnSecond(events))
    && forall event :: event in events ==>
         event.call != L.Left && (event.call.Rebound? || event.call.Opened? ==> event.call.peer < channels)
  }

  lemma PrefixIsJoint(events: seq<Event>, event: Event, channels: nat)
    requires Joint(events + [event], channels)
    ensures Joint(events, channels)
  {
    OnSnoc(events, event);
    L.Snoc(OnFirst(events), event.call);
    L.Snoc(OnSecond(events), event.call);
    assert OnFirst(events) + [] == OnFirst(events) && OnSecond(events) + [] == OnSecond(events);
    assert forall e :: e in events ==> e in events + [event];
  }

  /** The first call on a stream that is not left opens it. */
  lemma {:induction false} OpenedFirst(calls: seq<L.Call>)
    requires calls != [] && L.Disciplined(calls) && L.Left !in calls
    ensures calls[0].Opened?
  {
    if |calls| > 1 {
      var front := calls[..|calls| - 1];
      assert front[0] == calls[0] && forall c :: c in front ==> c in calls;
      OpenedFirst(front);
    } else {
      assert calls[..0] == [];
    }
  }

  ghost predicate Played(p: Pair, events: seq<Event>, x: nat, y: nat, channels: nat, dead: set<nat>) {
    && Plays(p.a, OnFirst(events), x) && Plays(p.b, OnSecond(events), y)
    && p.net == Net(channels, dead + LostIn(events))
  }

  lemma LostSnoc(events: seq<Event>, event: Event)
    ensures LostIn(events + [event]) == LostIn(events) + if event.call.Lost? then {event.call.peer} else {}
    ensures Moves(events + [event]) == Moves(events) + if ActOf(event.call).Some? then [event] else []
    ensures Play(events + [event]) == Play(events) + TurnsOf(event)
  {
    var all := events + [event];
    assert all[..|all| - 1] == events && all[|all| - 1] == event;
  }

  lemma NetOfCall(me: Side, call: L.Call, net: Net)
    requires ActOf(call).Some? && CallsOf(me, ActOf(call).value, net) == [call]
    ensures Move(me, ActOf(call).value, net).net ==
            net.(dead := net.dead + if call.Lost? then {call.peer} else {})
  {
    assert net.dead + {} == net.dead;
  }

  lemma FirstIsPlayed(p: Pair, events: seq<Event>, call: L.Call, x: nat, y: nat, channels: nat, dead: set<nat>)
    requires Played(p, events, x, y, channels, dead) && L.Disciplined(OnFirst(events) + [call]) && call != L.Left
    requires call.Rebound? ==> call.peer < channels
    requires OnFirst(events) == [] ==> call == L.Opened(x)
    ensures Played(Run(p, TurnsOf(OfFirst(call))), events + [OfFirst(call)], x, y, channels, dead)
    ensures History(p, TurnsOf(OfFirst(call))) == if ActOf(call).Some? then [OfFirst(call)] else []
  {
    OnSnoc(events, OfFirst(call));
    LostSnoc(events, OfFirst(call));
    CallIsPlayed(p.a, OnFirst(events), call, x, p.net);
    assert OnSecond(events) + [] == OnSecond(events);
    if ActOf(call).Some? {
      OneTurn(p, First(ActOf(call).value));
      NetOfCall(p.a, call, p.net);
      PeerPlays(p.b, Move(p.a, ActOf(call).value, p.net).sent, OnSecond(events), y);
    }
  }

  lemma SecondIsPlayed(p: Pair, events: seq<Event>, call: L.Call, x: nat, y: nat, channels: nat, dead: set<nat>)
    requires Played(p, events, x, y, channels, dead) && L.Disciplined(OnSecond(events) + [call]) && call != L.Left
    requires call.Rebound? ==> call.peer < channels
    requires OnSecond(events) == [] ==> call == L.Opened(y)
    ensures Played(Run(p, TurnsOf(OfSecond(call))), events + [OfSecond(call)], x, y, channels, dead)
    ensures History(p, TurnsOf(OfSecond(call))) == if ActOf(call).Some? then [OfSecond(call)] else []
  {
    OnSnoc(events, OfSecond(call));
    LostSnoc(events, OfSecond(call));
    CallIsPlayed(p.b, OnSecond(events), call, y, p.net);
    assert OnFirst(events) + [] == OnFirst(events);
    if ActOf(call).Some? {
      OneTurn(p, Second(ActOf(call).value));
      NetOfCall(p.b, call, p.net);
      PeerPlays(p.a, Move(p.b, ActOf(call).value, p.net).sent, OnFirst(events), x);
    }
  }

  /** One event more. */
  lemma EventIsPlayed(p: Pair, events: seq<Event>, event: Event, x: nat, y: nat, channels: nat, dead: set<nat>)
    requires Joint(events + [event], channels) && Played(p, events, x, y, channels, dead)
    requires OnFirst(events) == [] && event.OfFirst? ==> event.call == L.Opened(x)
    requires OnSecond(events) == [] && event.OfSecond? ==> event.call == L.Opened(y)
    ensures Played(Run(p, TurnsOf(event)), events + [event], x, y, channels, dead)
    ensures History(p, TurnsOf(event)) == if ActOf(event.call).Some? then [event] else []
  {
    OnSnoc(events, event);
    assert event in events + [event];
    match event
    case OfFirst(call) => FirstIsPlayed(p, events, call, x, y, channels, dead);
    case OfSecond(call) => SecondIsPlayed(p, events, call, x, y, channels, dead);
  }

  lemma PeerPlays(me: Side, sent: seq<Packet>, calls: seq<L.Call>, origin: nat)
    requires Plays(me, calls, origin)
    ensures Plays(me.(inbox := me.inbox + sent), calls, origin)
  {
  }

  lemma OneTurn(p: Pair, turn: Turn)
    ensures Run(p, [turn]) == Take(p, turn) && History(p, [turn]) == EventsOf(p, turn)
  {
    assert [turn][1..] == [];
    assert Run(Take(p, turn), []) == Take(p, turn);
    assert EventsOf(p, turn) + [] == EventsOf(p, turn);
  }

  lemma RunCons(p: Pair, turn: Turn, rest: seq<Turn>)
    ensures Run(p, [turn] + rest) == Run(Take(p, turn), rest)
    ensures History(p, [turn] + rest) == EventsOf(p, turn) + History(Take(p, turn), rest)
  {
    assert ([turn] + rest)[1..] == rest;
  }

  lemma Regroup<T>(a: seq<T>, b: seq<T>, c: seq<T>)
    ensures a + (b + c) == (a + b) + c
  {
  }

  lemma AppendCons(p: Pair, turn: Turn, rest: seq<Turn>, more: seq<Turn>)
    requires Run(Take(p, turn), rest + more) == Run(Run(Take(p, turn), rest), more)
    requires History(Take(p, turn), rest + more) == History(Take(p, turn), rest) + History(Run(Take(p, turn), rest), more)
    ensures Run(p, ([turn] + rest) + more) == Run(Run(p, [turn] + rest), more)
    ensures History(p, ([turn] + rest) + more) == History(p, [turn] + rest) + History(Run(p, [turn] + rest), more)
  {
    RunCons(p, turn, rest);
    RunCons(p, turn, rest + more);
    Regroup([turn], rest, more);
    Regroup(EventsOf(p, turn), History(Take(p, turn), rest), History(Run(Take(p, turn), rest), more));
  }

  lemma {:induction false} GoesOn(p: Pair, turns: seq<Turn>, more: seq<Turn>)
    ensures Run(p, turns + more) == Run(Run(p, turns), more)
    ensures History(p, turns + more) == History(p, turns) + History(Run(p, turns), more)
    decreases |turns|
  {
    if turns == [] {
      assert turns + more == more && [] + History(p, more) == History(p, more);
    } else {
      GoesOn(Take(p, turns[0]), turns[1..], more);
      AppendCons(p, turns[0], turns[1..], more);
      assert [turns[0]] + turns[1..] == turns;
    }
  }

  /** The pair in which each stream is opened on its channel, with some channels dead already. */
  function OpenedOn(windowA: nat, x: nat, windowB: nat, y: nat, channels: nat, dead: set<nat>): Pair {
    Pair(Fresh(windowA, x), Fresh(windowB, y), Net(channels, dead))
  }

  lemma {:induction false} EventsArePlayed(
    events: seq<Event>, windowA: nat, x: nat, windowB: nat, y: nat, channels: nat, dead: set<nat>)
    requires Joint(events, channels)
    requires OnFirst(events) != [] ==> OnFirst(events)[0] == L.Opened(x)
    requires OnSecond(events) != [] ==> OnSecond(events)[0] == L.Opened(y)
    ensures var start := OpenedOn(windowA, x, windowB, y, channels, dead);
            && History(start, Play(events)) == Moves(events)
            && Played(Run(start, Play(events)), events, x, y, channels, dead)
    decreases |events|
  {
    var start := OpenedOn(windowA, x, windowB, y, channels, dead);
    if events == [] {
      assert dead + {} == dead;
    } else {
      var front, last := events[..|events| - 1], events[|events| - 1];
      assert events == front + [last];
      PrefixIsJoint(front, last, channels);
      OnSnoc(front, last);
      LostSnoc(front, last);
      FrontOpens(OnFirst(front), OnFirst(events), x);
      FrontOpens(OnSecond(front), OnSecond(events), y);
      EventsArePlayed(front, windowA, x, windowB, y, channels, dead);
      EventIsPlayed(Run(start, Play(front)), front, last, x, y, channels, dead);
      GoesOn(start, Play(front), TurnsOf(last));
    }
  }

  lemma FrontOpens(front: seq<L.Call>, calls: seq<L.Call>, x: nat)
    requires front <= calls && (calls != [] ==> calls[0] == L.Opened(x))
    ensures front != [] ==> front[0] == L.Opened(x)
  {
  }

  lemma {:induction false} NoneLeaves(events: seq<Event>)
    requires forall event :: event in events ==> event.call != L.Left
    ensures L.Left !in OnFirst(events) && L.Left !in OnSecond(events)
    decreases |events|
  {
    if events != [] {
      var front, last := events[..|events| - 1], events[|events| - 1];
      assert last in events && forall event :: event in front ==> event in events;
      NoneLeaves(front);
    }
  }

  lemma {:induction false} OpenedIsNamed(events: seq<Event>, call: L.Call)
    requires call in OnFirst(events) || call in OnSecond(events)
    ensures exists event :: event in events && event.call == call
    decreases |events|
  {
    var front, last := events[..|events| - 1], events[|events| - 1];
    assert last in events;
    if last.call != call {
      OpenedIsNamed(front, call);
      var event :| event in front && event.call == call;
      assert event in events;
    }
  }

  /**
   * Whatever two endpoints do to their two streams, in whatever interleaving, until one is left:
   * a run of the pair binds and loses both sides in just that way and in that order, whichever
   * channels are dead; and a channel is dead in the end if it was or if either side has lost it.
   */
  lemma HistoryIsPlayed(events: seq<Event>, windowA: nat, windowB: nat, channels: nat, dead: set<nat>)
    returns (start: Pair, turns: seq<Turn>)
    requires Joint(events, channels) && OnFirst(events) != [] && OnSecond(events) != []
    ensures Opening(start) && start.net == Net(channels, dead)
    ensures OnFirst(events)[0] == L.Opened(start.a.link.value) && OnSecond(events)[0] == L.Opened(start.b.link.value)
    ensures start.a.s.window == windowA && start.b.s.window == windowB
    ensures History(start, turns) == Moves(events)
    ensures var p := Run(start, turns);
            && p.a.link == L.Bound(OnFirst(events)) && p.b.link == L.Bound(OnSecond(events))
            && p.net == Net(channels, dead + LostIn(events))
  {
    NoneLeaves(events);
    OpenedFirst(OnFirst(events));
    OpenedFirst(OnSecond(events));
    OpenedIsNamed(events, OnFirst(events)[0]);
    OpenedIsNamed(events, OnSecond(events)[0]);
    var x, y := OnFirst(events)[0].peer, OnSecond(events)[0].peer;
    start := OpenedOn(windowA, x, windowB, y, channels, dead);
    turns := Play(events);
    EventsArePlayed(events, windowA, x, windowB, y, channels, dead);
  }
}
