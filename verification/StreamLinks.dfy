/**
 * What the endpoints do to one stream: which connection it is bound to, and the discipline
 * that the pair of streams relies on.
 */
module StreamLinks {
  import opened Bytes

  /** The frames of a data channel, as far as the endpoints tell them apart. */
  datatype Frame =
    | Challenge
    | Response
    | Ready
    | Data(bytes: Chunk)
    | Control
    | Undecodable

  /** What is done to a stream: peers are bound to it and lost, and hand it frames; or it is left. */
  datatype Call =
    | Opened(peer: nat)
    | Rebound(peer: nat)
    | Lost(peer: nat)
    | Delivered(peer: nat, frame: Frame)
    | Left

  /** The peer that a stream is bound to. */
  function Bound(calls: seq<Call>): Option<nat> {
    if calls == [] then None
    else
      match calls[|calls| - 1]
      case Opened(p) => Some(p)
      case Rebound(p) => Some(p)
      case Lost(_) => None
      case Left => None
      case Delivered(_, _) => Bound(calls[..|calls| - 1])
  }

  /** The peers that a stream was ever bound to. */
  function Binders(calls: seq<Call>): set<nat> {
    if calls == [] then {}
    else
      var front := Binders(calls[..|calls| - 1]);
      var call := calls[|calls| - 1];
      if call.Opened? || call.Rebound? then front + {call.peer} else front
  }

  predicate Allowed(front: seq<Call>, call: Call) {
    && (call.Opened? ==> front == [])
    && (call.Rebound? ==> front != [] && Bound(front).None? && call.peer !in Binders(front))
    && (call.Lost? || call.Delivered? ==> Bound(front) == Some(call.peer))
  }

  /**
   * A stream is opened once; a lost link is replaced by that of a peer it never had; a loss
   * and a frame come from the peer it is bound to.
   */
  predicate Disciplined(calls: seq<Call>) {
    calls == [] ||
    var front := calls[..|calls| - 1];
    && Disciplined(front)
    && Allowed(front, calls[|calls| - 1])
  }

  lemma Snoc(calls: seq<Call>, call: Call)
    ensures Bound(calls + [call]) ==
            if call.Delivered? then Bound(calls) else if call.Lost? || call.Left? then None else Some(call.peer)
    ensures Binders(calls + [call]) ==
            if call.Opened? || call.Rebound? then Binders(calls) + {call.peer} else Binders(calls)
    ensures Disciplined(calls + [call]) <==> Disciplined(calls) && Allowed(calls, call)
  {
    var all := calls + [call];
    assert all[..|all| - 1] == calls && all[|all| - 1] == call;
  }

  lemma {:induction false} BoundIsBinder(calls: seq<Call>)
    ensures Bound(calls).Some? ==> Bound(calls).value in Binders(calls)
  {
    if calls != [] && calls[|calls| - 1].Delivered? {
      BoundIsBinder(calls[..|calls| - 1]);
    }
  }

  lemma {:induction false} BindersGrow(calls: seq<Call>, i: nat)
    requires i <= |calls|
    ensures Binders(calls[..i]) <= Binders(calls)
  {
    if i < |calls| {
      var front := calls[..|calls| - 1];
      BindersGrow(front, i);
      assert front[..i] == calls[..i];
    } else {
      assert calls[..i] == calls;
    }
  }

  lemma {:induction false} PrefixDisciplined(calls: seq<Call>, i: nat)
    requires i <= |calls| && Disciplined(calls)
    ensures Disciplined(calls[..i])
  {
    if i < |calls| {
      var front := calls[..|calls| - 1];
      PrefixDisciplined(front, i);
      assert front[..i] == calls[..i];
    } else {
      assert calls[..i] == calls;
    }
  }

  /** A frame comes from the peer that the stream is bound to at that moment. */
  lemma DeliveredByBound(calls: seq<Call>, k: nat)
    requires Disciplined(calls) && k < |calls| && calls[k].Delivered?
    ensures Bound(calls[..k]) == Some(calls[k].peer) && calls[k].peer in Binders(calls)
  {
    PrefixDisciplined(calls, k + 1);
    assert calls[..k + 1][..k] == calls[..k] && calls[..k + 1][k] == calls[k];
    BoundIsBinder(calls[..k]);
    BindersGrow(calls, k);
  }

  /** A lost peer stays unbound. */
  lemma {:induction false} LostStaysUnbound(calls: seq<Call>, i: nat, p: nat)
    requires Disciplined(calls) && i < |calls| && calls[i] == Lost(p)
    ensures Bound(calls) != Some(p) && p in Binders(calls)
  {
    var front := calls[..|calls| - 1];
    if i == |calls| - 1 {
      BoundIsBinder(front);
    } else {
      assert front[i] == calls[i];
      LostStaysUnbound(front, i, p);
    }
  }

  /** Once a peer is lost, nothing it still sends reaches the stream, and it is not bound again. */
  lemma NothingAfterLoss(calls: seq<Call>, i: nat, j: nat, p: nat)
    requires Disciplined(calls) && i < j < |calls| && calls[i] == Lost(p)
    ensures !(calls[j].Delivered? && calls[j].peer == p) && calls[j] != Rebound(p) && calls[j] != Lost(p)
  {
    var upTo := calls[..j];
    PrefixDisciplined(calls, j + 1);
    assert calls[..j + 1][..j] == upTo;
    PrefixDisciplined(calls, j);
    assert upTo[i] == calls[i];
    LostStaysUnbound(upTo, i, p);
  }
}
