/**
 * The admission wrapper: 62 bytes of admission frame are cut off the front of a byte stream,
 * wherever the transport cuts it, and not one byte of the application is lost or invented.
 */
module AuthenticatedStream {
  import opened Bytes
  import opened Source
  import opened SessionAuth

  datatype AdmissionError = TimedOut | Ended | Refused(failure: Failure) | Unsent | Undrained

  datatype Consumed = Consumed(prefix: Chunk, remainder: Chunk)

  /** The chunks a reader sees that has time for that many calls of next. */
  function Seen(chunks: seq<Chunk>, patience: nat): seq<Chunk> {
    if |chunks| <= patience then chunks else chunks[..patience]
  }

  /**
   * Read at least `length` bytes. `patience` is how many calls of next complete before the
   * deadline.
   */
  method ConsumePrefix(source: ChunkSource, length: nat, patience: nat) returns (r: Result<Consumed, AdmissionError>)
    modifies source
    ensures r.Ok? <==> Size(Seen(old(source.rest), patience)) >= length
    ensures r.Ok? ==>
              && |r.value.prefix| == length
              && r.value.prefix + r.value.remainder + Flatten(source.rest) == Flatten(old(source.rest))
    ensures r.Err? ==> r.error == if |old(source.rest)| < patience then Ended else TimedOut
  {
    ghost var all := source.rest;
    var chunks: seq<Chunk> := [];
    var received := 0;
    var calls := 0;
    while received < length
      invariant calls <= patience && calls <= |all| && source.rest == all[calls..]
      invariant Flatten(chunks) == Flatten(all[..calls])
      invariant received == Size(chunks) == Size(all[..calls])
      invariant calls > 0 ==> Size(all[..calls - 1]) < length
      decreases |all| - calls
    {
      if calls == patience {
        assert Seen(all, patience) == all[..calls];
        return Err(TimedOut);
      }
      var item := source.Next();
      if item.None? {
        assert Seen(all, patience) == all == all[..calls];
        return Err(Ended);
      }
      var chunk := item.value;
      TakeOneMore(all, calls);
      calls := calls + 1;
      if |chunk| == 0 { continue; }
      Collects(chunks, chunk);
      chunks := chunks + [chunk];
      received := received + |chunk|;
    }
    SeenGrows(all, calls, patience);
    var combined := Flatten(chunks);
    SizeIsFlattenLength(chunks);
    NothingMissing(all, calls, combined, length);
    r := Ok(Consumed(combined[..length], combined[length..]));
  }

  lemma Collects(chunks: seq<Chunk>, chunk: Chunk)
    ensures Flatten(chunks + [chunk]) == Flatten(chunks) + chunk && Size(chunks + [chunk]) == Size(chunks) + |chunk|
  {
    FlattenAppend(chunks, [chunk]);
    FlattenOne(chunk);
    SizeAppend(chunks, [chunk]);
    assert Size([chunk]) == |chunk| + Size([]);
  }

  lemma FlattenSplit(all: seq<Chunk>, k: nat)
    requires k <= |all|
    ensures Flatten(all[..k]) + Flatten(all[k..]) == Flatten(all)
  {
    FlattenAppend(all[..k], all[k..]);
    assert all == all[..k] + all[k..];
  }

  lemma CutInTwo(combined: Chunk, length: nat, later: Chunk)
    requires length <= |combined|
    ensures combined[..length] + combined[length..] + later == combined + later
  {
  }

  lemma Regroup(a: Chunk, b: Chunk, c: Chunk)
    ensures a + (b + c) == (a + b) + c
  {
  }

  /** What was read, cut in two, and what is still to read are the whole. */
  lemma NothingMissing(all: seq<Chunk>, calls: nat, combined: Chunk, length: nat)
    requires calls <= |all| && combined == Flatten(all[..calls]) && length <= |combined|
    ensures combined[..length] + combined[length..] + Flatten(all[calls..]) == Flatten(all)
  {
    FlattenSplit(all, calls);
    CutInTwo(combined, length, Flatten(all[calls..]));
  }

  lemma TakeOneMore(all: seq<Chunk>, k: nat)
    requires k < |all|
    ensures Flatten(all[..k + 1]) == Flatten(all[..k]) + all[k]
    ensures Size(all[..k + 1]) == Size(all[..k]) + |all[k]|
  {
    assert all[..k + 1] == all[..k] + [all[k]];
    FlattenAppend(all[..k], [all[k]]);
    FlattenOne(all[k]);
    SizeAppend(all[..k], [all[k]]);
  }

  lemma SeenGrows(all: seq<Chunk>, k: nat, patience: nat)
    requires k <= |all| && k <= patience
    ensures Size(all[..k]) <= Size(Seen(all, patience))
  {
    var seen := Seen(all, patience);
    assert seen == all[..k] + seen[k..];
    SizeAppend(all[..k], seen[k..]);
  }

  /** wrapConsumedStream. */
  class AdmittedStream {
    const source: ChunkSource
    const remainder: Chunk
    var iterated: bool
    var pending: Chunk

    /** The bytes the application has still to be given. */
    ghost function Unread(): Chunk
      reads this, source
    {
      (if iterated then pending else remainder) + Flatten(source.rest)
    }

    constructor (source: ChunkSource, remainder: Chunk)
      ensures this.source == source && !iterated
      ensures Unread() == remainder + Flatten(source.rest)
    {
      this.source := source;
      this.remainder := remainder;
      iterated := false;
      pending := [];
    }

    /** The stream can be consumed once. */
    method Iterate() returns (ok: bool)
      modifies this
      ensures ok <==> !old(iterated)
      ensures iterated && Unread() == old(Unread())
    {
      if iterated { return false; }
      iterated := true;
      pending := remainder;
      return true;
    }

    method Next() returns (item: Option<Chunk>)
      requires iterated
      modifies this`pending, source
      ensures iterated
      ensures match item
              case Some(chunk) =>
                && old(Unread()) == chunk + Unread()
                && |source.rest| <= old(|source.rest|)
                && (old(pending) == [] ==> |source.rest| < old(|source.rest|) && pending == [])
                && (old(pending) != [] ==> |source.rest| == old(|source.rest|) && pending == [])
              case None => old(Unread()) == [] && Unread() == []
    {
      if |pending| > 0 {
        item := Some(pending);
        pending := [];
        return;
      }
      item := source.Next();
    }
  }

  /** for await over the admitted stream. */
  method ReadToEnd(stream: AdmittedStream) returns (chunks: seq<Chunk>)
    requires !stream.iterated
    modifies stream, stream.source
    ensures Flatten(chunks) == old(stream.Unread())
  {
    ghost var all := stream.Unread();
    var ok := stream.Iterate();
    chunks := [];
    var done := false;
    while !done
      invariant stream.iterated
      invariant Flatten(chunks) + stream.Unread() == all
      invariant done ==> stream.Unread() == []
      decreases !done, |stream.source.rest|, |stream.pending|
    {
      var item := stream.Next();
      match item
      case None => done := true;
      case Some(chunk) =>
        Collects(chunks, chunk);
        Regroup(Flatten(chunks), chunk, stream.Unread());
        chunks := chunks + [chunk];
    }
  }

  // ----- the two parties -----

  /** What a server makes of the whole byte stream of a client. */
  function ServerAdmits(mac: Mac, token: Token, stream: Chunk, now: int): Result<(Hello, Chunk), AdmissionError> {
    if |stream| < FRAME_BYTES then Err(Ended)
    else
      match VerifyHello(mac, token, stream[..FRAME_BYTES], now)
      case Err(failure) => Err(Refused(failure))
      case Ok(hello) => Ok((hello, stream[FRAME_BYTES..]))
  }

  /** What a client makes of the whole byte stream of a server. */
  function ClientAdmits(mac: Mac, token: Token, hello: Hello, stream: Chunk): Result<Chunk, AdmissionError> {
    if |stream| < FRAME_BYTES then Err(Ended)
    else
      match VerifyAck(mac, token, hello, stream[..FRAME_BYTES])
      case Err(failure) => Err(Refused(failure))
      case Ok(_) => Ok(stream[FRAME_BYTES..])
  }

  /** A party that is not cut off by its deadline. */
  ghost predicate InTime(chunks: seq<Chunk>, patience: nat) {
    |chunks| < patience
  }

  /**
   * What becomes of a frame: the stream takes it and drains, refuses it, or takes it and then
   * fails before it has drained.
   */
  datatype Delivery = Drains | Refuses | TakesOnly

  /** The error of a party whose frame was not delivered. */
  function DeliveryError(delivery: Delivery): AdmissionError
    requires !delivery.Drains?
  {
    if delivery.Refuses? then Unsent else Undrained
  }

  /**
   * authenticateServerStream: the frames the stream accepted, the stream it hands to the
   * application, and whether it aborts the stream.
   */
  method AuthenticateServer(mac: Mac, token: Token, source: ChunkSource, now: int, nonce: Nonce, patience: nat, delivery: Delivery)
    returns (admitted: Result<AdmittedStream, AdmissionError>, sent: seq<Chunk>, aborted: bool)
    modifies source
    ensures admitted.Ok? ==> fresh(admitted.value) && admitted.value.source == source && !admitted.value.iterated
    ensures admitted.Ok? ==>
              var whole := ServerAdmits(mac, token, Flatten(old(source.rest)), now);
              && whole.Ok?
              && admitted.value.Unread() == whole.value.1
              && sent == [CreateAck(mac, token, whole.value.0, nonce)]
    ensures admitted.Err? && admitted.error != Undrained ==> sent == []
    ensures admitted == Err(Undrained) ==>
              var whole := ServerAdmits(mac, token, Flatten(old(source.rest)), now);
              delivery.TakesOnly? && whole.Ok? && sent == [CreateAck(mac, token, whole.value.0, nonce)]
    ensures aborted <==> admitted.Err?
    ensures !delivery.Drains? ==> admitted.Err?
    ensures InTime(old(source.rest), patience) ==>
              match ServerAdmits(mac, token, Flatten(old(source.rest)), now)
              case Ok(_) => if delivery.Drains? then admitted.Ok? else admitted == Err(DeliveryError(delivery))
              case Err(e) => admitted == Err(e)
  {
    ghost var all := source.rest;
    var consumed := ConsumePrefix(source, FRAME_BYTES, patience);
    SizeIsFlattenLength(all);
    SeenGrows(all, if |all| <= patience then |all| else patience, patience);
    if consumed.Err? { return Err(consumed.error), [], true; }
    CutFront(consumed.value.prefix, consumed.value.remainder, Flatten(source.rest));
    var verified := VerifyHello(mac, token, consumed.value.prefix, now);
    if verified.Err? { return Err(Refused(verified.error)), [], true; }
    if delivery.Refuses? { return Err(Unsent), [], true; }
    sent := [CreateAck(mac, token, verified.value, nonce)];
    if delivery.TakesOnly? { return Err(Undrained), sent, true; }
    var stream := new AdmittedStream(source, consumed.value.remainder);
    return Ok(stream), sent, false;
  }

  /** authenticateClientStream. A token that is not usable is found before anything is sent, and aborts nothing. */
  method AuthenticateClient(mac: Mac, token: Token, source: ChunkSource, now: int, nonce: Nonce, patience: nat, delivery: Delivery)
    returns (admitted: Result<AdmittedStream, AdmissionError>, sent: seq<Chunk>, aborted: bool)
    modifies source
    ensures match CreateHello(mac, token, now, nonce)
            case Err(failure) => admitted == Err(Refused(failure)) && sent == [] && !aborted
            case Ok(made) => sent == (if delivery.Refuses? then [] else [made.0]) && (aborted <==> admitted.Err?)
    ensures CreateHello(mac, token, now, nonce).Ok? && !delivery.Drains? ==>
              admitted == Err(DeliveryError(delivery)) && source.rest == old(source.rest)
    ensures admitted.Ok? ==> fresh(admitted.value) && admitted.value.source == source && !admitted.value.iterated
    ensures admitted.Ok? ==>
              Ok(admitted.value.Unread()) ==
              ClientAdmits(mac, token, CreateHello(mac, token, now, nonce).value.1, Flatten(old(source.rest)))
    ensures CreateHello(mac, token, now, nonce).Ok? && delivery.Drains? && InTime(old(source.rest), patience) ==>
              match ClientAdmits(mac, token, CreateHello(mac, token, now, nonce).value.1, Flatten(old(source.rest)))
              case Ok(_) => admitted.Ok?
              case Err(e) => admitted == Err(e)
  {
    ghost var all := source.rest;
    var made := CreateHello(mac, token, now, nonce);
    if made.Err? { return Err(Refused(made.error)), [], false; }
    if delivery.Refuses? { return Err(Unsent), [], true; }
    sent := [made.value.0];
    if delivery.TakesOnly? { return Err(Undrained), sent, true; }
    var consumed := ConsumePrefix(source, FRAME_BYTES, patience);
    SizeIsFlattenLength(all);
    SeenGrows(all, if |all| <= patience then |all| else patience, patience);
    if consumed.Err? { return Err(consumed.error), sent, true; }
    CutFront(consumed.value.prefix, consumed.value.remainder, Flatten(source.rest));
    var verified := VerifyAck(mac, token, made.value.1, consumed.value.prefix);
    if verified.Err? { return Err(Refused(verified.error)), sent, true; }
    var stream := new AdmittedStream(source, consumed.value.remainder);
    return Ok(stream), sent, false;
  }

  lemma CutFront(prefix: Chunk, remainder: Chunk, later: Chunk)
    ensures (prefix + remainder + later)[..|prefix|] == prefix
    ensures (prefix + remainder + later)[|prefix|..] == remainder + later
  {
  }

  /**
   * Two parties with one token: each application receives exactly the bytes of the other,
   * whatever those bytes are.
   */
  lemma MutualAdmission(mac: Mac, token: Token, clientNow: int, serverNow: int, clientNonce: Nonce, serverNonce: Nonce,
                        clientBytes: Chunk, serverBytes: Chunk)
    requires SafeInteger(clientNow) && SafeInteger(serverNow)
    requires Unexpired(token, clientNow) && Unexpired(token, serverNow)
    requires -120 <= clientNow - serverNow <= 120
    ensures var hello := Hello(clientNow, clientNonce);
            && CreateHello(mac, token, clientNow, clientNonce).Ok?
            && ServerAdmits(mac, token, CreateHello(mac, token, clientNow, clientNonce).value.0 + clientBytes, serverNow) ==
               Ok((hello, clientBytes))
            && ClientAdmits(mac, token, hello, CreateAck(mac, token, hello, serverNonce) + serverBytes) == Ok(serverBytes)
  {
    var hello := Hello(clientNow, clientNonce);
    HandshakeCompletes(mac, token, clientNow, serverNow, clientNonce, serverNonce);
    CutFront(CreateHello(mac, token, clientNow, clientNonce).value.0, clientBytes, []);
    CutFront(CreateAck(mac, token, hello, serverNonce), serverBytes, []);
    var made, ack := CreateHello(mac, token, clientNow, clientNonce).value.0, CreateAck(mac, token, hello, serverNonce);
    assert made + clientBytes + [] == made + clientBytes;
    assert ack + serverBytes + [] == ack + serverBytes;
    assert clientBytes + [] == clientBytes && serverBytes + [] == serverBytes;
  }
}
