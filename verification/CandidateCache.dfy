/**
 * The listener's cache of candidates that arrive before their offer: groups by attempt key in
 * the order in which they were begun, with bounds on the groups and on each group.
 */
module CandidateCache {
  import opened Bytes

  const MAX_PENDING_CANDIDATE_SESSIONS: nat := 128
  const MAX_PENDING_CANDIDATES_PER_ATTEMPT: nat := 32

  /** One signaling attempt: the adapter it came through, the remote peer and its session id. */
  datatype Key = Key(session: string, remote: string, id: string)

  /** A signaling message, by the number of its arrival. */
  type Message = nat

  datatype Group = Group(key: Key, messages: seq<Message>)

  type Groups = seq<Group>

  predicate Has(groups: Groups, key: Key) {
    exists i :: 0 <= i < |groups| && groups[i].key == key
  }

  /** The messages cached for a key; none without a group. */
  function Messages(groups: Groups, key: Key): seq<Message> {
    if groups == [] then []
    else if groups[0].key == key then groups[0].messages
    else Messages(groups[1..], key)
  }

  function Forget(groups: Groups, key: Key): Groups {
    if groups == [] then []
    else if groups[0].key == key then groups[1..]
    else [groups[0]] + Forget(groups[1..], key)
  }

  /** A message joins its group unless that is full. */
  function Join(groups: Groups, key: Key, message: Message): Groups {
    if groups == [] then []
    else if groups[0].key == key then
      [if |groups[0].messages| < MAX_PENDING_CANDIDATES_PER_ATTEMPT
       then groups[0].(messages := groups[0].messages + [message]) else groups[0]] + groups[1..]
    else [groups[0]] + Join(groups[1..], key, message)
  }

  /** A new group evicts the oldest when the cache is full. */
  function Queue(groups: Groups, key: Key, message: Message): Groups {
    if Has(groups, key) then Join(groups, key, message)
    else
      var kept := if |groups| >= MAX_PENDING_CANDIDATE_SESSIONS then groups[1..] else groups;
      kept + [Group(key, [message])]
  }

  /** Forgetting the oldest group drops the front of the cache. */
  lemma OldestForgotten(groups: Groups)
    requires groups != []
    ensures Forget(groups, groups[0].key) == groups[1..]
  {
  }

  // ----- bounds -----

  predicate Bounded(groups: Groups) {
    && |groups| <= MAX_PENDING_CANDIDATE_SESSIONS
    && (forall i :: 0 <= i < |groups| ==> 0 < |groups[i].messages| <= MAX_PENDING_CANDIDATES_PER_ATTEMPT)
    && (forall i, j :: 0 <= i < j < |groups| ==> groups[i].key != groups[j].key)
  }

  lemma {:induction false} ForgetSplit(groups: Groups, key: Key) returns (i: nat)
    ensures i <= |groups|
    ensures forall j :: 0 <= j < i ==> groups[j].key != key
    ensures i < |groups| ==> groups[i].key == key && Forget(groups, key) == groups[..i] + groups[i + 1..]
    ensures i == |groups| ==> Forget(groups, key) == groups
  {
    if groups == [] || groups[0].key == key {
      i := 0;
    } else {
      var k := ForgetSplit(groups[1..], key);
      i := k + 1;
      forall j | 0 <= j < i
        ensures groups[j].key != key
      {
        assert j > 0 ==> groups[j] == groups[1..][j - 1];
      }
      if i < |groups| {
        assert groups[..i] == [groups[0]] + groups[1..][..k];
        assert groups[i + 1..] == groups[1..][k + 1..];
      }
    }
  }

  lemma ForgetKeeps(groups: Groups, key: Key)
    requires Bounded(groups)
    ensures Bounded(Forget(groups, key))
    ensures forall k :: 0 <= k < |Forget(groups, key)| ==> Forget(groups, key)[k] in groups
    ensures !Has(Forget(groups, key), key)
  {
    var i := ForgetSplit(groups, key);
    if i < |groups| {
      var rest := Forget(groups, key);
      assert forall k :: 0 <= k < |rest| ==> rest[k] == groups[if k < i then k else k + 1];
    }
  }

  lemma {:induction false} JoinKeeps(groups: Groups, key: Key, message: Message)
    requires Bounded(groups)
    ensures Bounded(Join(groups, key, message)) && |Join(groups, key, message)| == |groups|
    ensures forall i :: 0 <= i < |groups| ==> Join(groups, key, message)[i].key == groups[i].key
  {
    if groups != [] {
      JoinKeeps(groups[1..], key, message);
    }
  }

  lemma QueueKeeps(groups: Groups, key: Key, message: Message)
    requires Bounded(groups)
    ensures Bounded(Queue(groups, key, message))
    ensures forall g :: g in Queue(groups, key, message) ==> g.key == key || Has(groups, g.key)
  {
    if Has(groups, key) {
      JoinKeeps(groups, key, message);
    }
  }

  // ----- contents -----

  lemma {:induction false} NoGroupNoMessages(groups: Groups, key: Key)
    requires !Has(groups, key)
    ensures Messages(groups, key) == []
  {
    if groups != [] {
      assert groups[0].key != key;
      forall i | 0 <= i < |groups[1..]|
        ensures groups[1..][i].key != key
      {
        assert groups[1..][i] == groups[i + 1];
      }
      NoGroupNoMessages(groups[1..], key);
    }
  }

  lemma {:induction false} JoinMessages(groups: Groups, key: Key, message: Message, other: Key)
    requires Bounded(groups)
    ensures Messages(Join(groups, key, message), other) ==
            if other == key && Has(groups, key) && |Messages(groups, key)| < MAX_PENDING_CANDIDATES_PER_ATTEMPT
            then Messages(groups, key) + [message] else Messages(groups, other)
  {
    if groups != [] {
      if groups[0].key != key {
        JoinMessages(groups[1..], key, message, other);
        HasRest(groups, key);
      } else {
        assert Has(groups, key);
      }
    }
  }

  lemma HasRest(groups: Groups, key: Key)
    requires groups != [] && groups[0].key != key
    ensures Has(groups, key) <==> Has(groups[1..], key)
  {
    if Has(groups, key) {
      var i :| 0 <= i < |groups| && groups[i].key == key;
      assert groups[1..][i - 1].key == key;
    }
    if Has(groups[1..], key) {
      var i :| 0 <= i < |groups[1..]| && groups[1..][i].key == key;
      assert groups[i + 1].key == key;
    }
  }

  lemma {:induction false} MessagesAppend(groups: Groups, g: Group, key: Key)
    ensures Messages(groups + [g], key) ==
            if Has(groups, key) then Messages(groups, key) else if g.key == key then g.messages else []
  {
    if groups == [] {
      assert groups + [g] == [g];
    } else {
      assert (groups + [g])[1..] == groups[1..] + [g];
      if groups[0].key != key {
        MessagesAppend(groups[1..], g, key);
        HasRest(groups, key);
      } else {
        assert Has(groups, key);
      }
    }
  }

  /**
   * A group is the first 32 messages of its key since it was begun, in order; other groups
   * are left alone, except the oldest, which goes when a new group finds the cache full.
   */
  lemma QueueMessages(groups: Groups, key: Key, message: Message, other: Key)
    requires Bounded(groups)
    ensures Messages(Queue(groups, key, message), key) ==
            if |Messages(groups, key)| < MAX_PENDING_CANDIDATES_PER_ATTEMPT
            then Messages(groups, key) + [message] else Messages(groups, key)
    ensures other != key ==>
              Messages(Queue(groups, key, message), other) ==
              if !Has(groups, key) && |groups| == MAX_PENDING_CANDIDATE_SESSIONS && other == groups[0].key
              then [] else Messages(groups, other)
  {
    if Has(groups, key) {
      JoinMessages(groups, key, message, key);
      JoinMessages(groups, key, message, other);
    } else {
      NoGroupNoMessages(groups, key);
      var kept := if |groups| >= MAX_PENDING_CANDIDATE_SESSIONS then groups[1..] else groups;
      KeptMessages(groups, key, kept, key);
      KeptMessages(groups, key, kept, other);
      MessagesAppend(kept, Group(key, [message]), key);
      MessagesAppend(kept, Group(key, [message]), other);
      if !Has(kept, other) {
        NoGroupNoMessages(kept, other);
      }
    }
  }

  lemma KeptMessages(groups: Groups, key: Key, kept: Groups, other: Key)
    requires Bounded(groups) && !Has(groups, key)
    requires kept == if |groups| >= MAX_PENDING_CANDIDATE_SESSIONS then groups[1..] else groups
    ensures !Has(kept, key)
    ensures Messages(kept, other) ==
            if |groups| == MAX_PENDING_CANDIDATE_SESSIONS && other == groups[0].key then [] else Messages(groups, other)
  {
    if |groups| >= MAX_PENDING_CANDIDATE_SESSIONS {
      forall i | 0 <= i < |kept|
        ensures kept[i].key != key && kept[i].key != groups[0].key
      {
        assert kept[i] == groups[i + 1];
      }
      if other == groups[0].key {
        NoGroupNoMessages(kept, other);
      }
    }
  }

  lemma {:induction false} ForgetMessages(groups: Groups, key: Key, other: Key)
    requires Bounded(groups)
    ensures Messages(Forget(groups, key), other) == if other == key then [] else Messages(groups, other)
  {
    if groups != [] {
      if groups[0].key == key {
        forall i | 0 <= i < |groups[1..]|
          ensures groups[1..][i].key != key
        {
          assert groups[1..][i] == groups[i + 1];
        }
        NoGroupNoMessages(groups[1..], key);
      } else {
        ForgetMessages(groups[1..], key, other);
      }
    }
  }
}
