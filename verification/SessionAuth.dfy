/**
 * Mutual admission with a pairing token: a 62-byte hello and a 62-byte acknowledgement, each
 * carrying a message authentication code over a transcript. The code itself, with the key
 * derived from the token's secret, is the abstract function `mac`.
 */
module SessionAuth {
  import opened Bytes
  import opened BigEndian
  import opened Text

  const MAX_SAFE_INTEGER: int := 0x1F_FFFF_FFFF_FFFF
  const AUTH_VERSION: byte := 1
  const CLIENT_HELLO: byte := 1
  const SERVER_ACK: byte := 2
  const NONCE_BYTES: nat := 16
  const MAC_BYTES: nat := 32
  const FRAME_BYTES: nat := 62
  const CLOCK_SKEW_SECONDS: nat := 120
  const MAGIC: seq<byte> := [0x50, 0x4e, 0x43, 0x41]

  type Nonce = b: seq<byte> | |b| == NONCE_BYTES witness seq(NONCE_BYTES, _ => 0)

  type Tag = b: seq<byte> | |b| == MAC_BYTES witness seq(MAC_BYTES, _ => 0)

  type Mac = (seq<byte>, seq<byte>) -> Tag

  type Timestamp = n: nat | n <= 0x1F_FFFF_FFFF_FFFF

  datatype Token = Token(peerId: seq<byte>, service: nat, secret: seq<byte>, expiresAt: Option<nat>)

  datatype Failure =
    | TokenExpired | BadInteger | BadLength | BadMagic | BadVersion | BadType | UnsafeTimestamp
    | OutsideClock | TimestampChanged | BadMac

  datatype Fields = Fields(timestamp: Timestamp, nonce: Nonce, mac: Tag)

  datatype Hello = Hello(timestamp: Timestamp, clientNonce: Nonce)

  datatype Role = Client | Server

  // ----- frames -----

  function EncodeFrame(kind: byte, fields: Fields): (frame: Chunk)
    ensures |frame| == FRAME_BYTES
  {
    MAGIC + [AUTH_VERSION, kind] + ToBigEndian(fields.timestamp, 8) + fields.nonce + fields.mac
  }

  function DecodeFrame(frame: Chunk, expected: byte): Result<Fields, Failure> {
    if |frame| != FRAME_BYTES then Err(BadLength)
    else if frame[..4] != MAGIC then Err(BadMagic)
    else if frame[4] != AUTH_VERSION then Err(BadVersion)
    else if frame[5] != expected then Err(BadType)
    else if FromBigEndian(frame[6..14]) > MAX_SAFE_INTEGER then Err(UnsafeTimestamp)
    else Ok(Fields(FromBigEndian(frame[6..14]), frame[14..30], frame[30..]))
  }

  lemma TimestampFits()
    ensures MAX_SAFE_INTEGER < Pow256(8)
  {
    assert Pow256(4) == 0x1_0000_0000;
    assert Pow256(8) == 0x100 * (0x100 * (0x100 * (0x100 * Pow256(4))));
  }

  lemma FrameParts(kind: byte, fields: Fields)
    ensures var f := EncodeFrame(kind, fields);
            && f[..4] == MAGIC && f[4] == AUTH_VERSION && f[5] == kind
            && f[6..14] == ToBigEndian(fields.timestamp, 8)
            && f[14..30] == fields.nonce && f[30..] == fields.mac
  {
  }

  /** A frame decodes to some fields exactly when it is the encoding of those fields. */
  lemma FrameExact(frame: Chunk, kind: byte, fields: Fields)
    ensures DecodeFrame(frame, kind) == Ok(fields) <==> frame == EncodeFrame(kind, fields)
  {
    FrameParts(kind, fields);
    TimestampFits();
    ReadBack(fields.timestamp, 8);
    if DecodeFrame(frame, kind) == Ok(fields) {
      WriteBack(frame[6..14]);
      assert frame == frame[..4] + [frame[4], frame[5]] + frame[6..14] + frame[14..30] + frame[30..];
    }
  }

  // ----- transcripts -----

  function RoleName(role: Role): seq<byte> {
    match role
    case Client => Ascii("client")
    case Server => Ascii("server")
  }

  /** What the code of a frame covers. */
  function Transcript(role: Role, token: Token, timestamp: Timestamp, clientNonce: Nonce, serverNonce: Option<Nonce>): seq<byte> {
    Terminated(0, Headings(role, token, timestamp)) + clientNonce +
    match serverNonce
    case Some(nonce) => nonce
    case None => []
  }

  function Headings(role: Role, token: Token, timestamp: Timestamp): seq<seq<byte>> {
    [Ascii("p2p-netcat/session-auth/v1"), RoleName(role), token.peerId, Decimal(token.service), Decimal(timestamp)]
  }

  lemma NamesFree(role: Role)
    ensures FreeOf(0, Ascii("p2p-netcat/session-auth/v1")) && FreeOf(0, RoleName(role))
  {
    assert forall i :: 0 <= i < 26 ==> "p2p-netcat/session-auth/v1"[i] != '\0';
    match role
    case Client => assert forall i :: 0 <= i < 6 ==> "client"[i] != '\0';
    case Server => assert forall i :: 0 <= i < 6 ==> "server"[i] != '\0';
  }

  lemma DecimalFree(n: nat)
    ensures FreeOf(0, Decimal(n))
  {
    DecimalReadBack(n);
  }

  lemma HeadingsFree(role: Role, token: Token, timestamp: Timestamp)
    requires FreeOf(0, token.peerId)
    ensures forall i :: 0 <= i < 5 ==> FreeOf(0, Headings(role, token, timestamp)[i])
  {
    DecimalFree(token.service);
    DecimalFree(timestamp);
    NamesFree(role);
  }

  lemma RolesDiffer()
    ensures RoleName(Client) != RoleName(Server)
  {
    assert RoleName(Client)[0] == 'c' as int && RoleName(Server)[0] == 's' as int;
  }

  /** A transcript determines everything it was made of. */
  lemma TranscriptInjective(role: Role, token: Token, timestamp: Timestamp, clientNonce: Nonce, serverNonce: Option<Nonce>,
                            role': Role, token': Token, timestamp': Timestamp, clientNonce': Nonce, serverNonce': Option<Nonce>)
    requires FreeOf(0, token.peerId) && FreeOf(0, token'.peerId)
    requires Transcript(role, token, timestamp, clientNonce, serverNonce) ==
             Transcript(role', token', timestamp', clientNonce', serverNonce')
    ensures role == role' && token.peerId == token'.peerId && token.service == token'.service
    ensures timestamp == timestamp' && clientNonce == clientNonce' && serverNonce == serverNonce'
  {
    var f, g := Headings(role, token, timestamp), Headings(role', token', timestamp');
    HeadingsFree(role, token, timestamp);
    HeadingsFree(role', token', timestamp');
    var x := clientNonce + match serverNonce case Some(nonce) => nonce case None => [];
    var y := clientNonce' + match serverNonce' case Some(nonce) => nonce case None => [];
    assert Transcript(role, token, timestamp, clientNonce, serverNonce) == Terminated(0, f) + x;
    assert Transcript(role', token', timestamp', clientNonce', serverNonce') == Terminated(0, g) + y;
    TerminatedInjective(0, f, x, g, y);
    assert f[1] == g[1] && f[2] == g[2] && f[3] == g[3] && f[4] == g[4];
    RolesDiffer();
    DecimalInjective(token.service, token'.service);
    DecimalInjective(timestamp, timestamp');
    assert x[..16] == clientNonce && y[..16] == clientNonce';
    if serverNonce.Some? && serverNonce'.Some? {
      assert x[16..] == serverNonce.value && y[16..] == serverNonce'.value;
    }
  }

  // ----- the handshake -----

  predicate SafeInteger(n: int) {
    0 <= n <= MAX_SAFE_INTEGER
  }

  function Usable(token: Token, now: int): Result<bool, Failure> {
    if token.expiresAt.None? then Ok(true)
    else if !(-MAX_SAFE_INTEGER <= now <= MAX_SAFE_INTEGER) then Err(BadInteger)
    else if now > token.expiresAt.value then Err(TokenExpired)
    else Ok(true)
  }

  function ClientTag(mac: Mac, token: Token, hello: Hello): Tag {
    mac(token.secret, Transcript(Client, token, hello.timestamp, hello.clientNonce, None))
  }

  function ServerTag(mac: Mac, token: Token, hello: Hello, serverNonce: Nonce): Tag {
    mac(token.secret, Transcript(Server, token, hello.timestamp, hello.clientNonce, Some(serverNonce)))
  }

  function CreateHello(mac: Mac, token: Token, now: int, nonce: Nonce): Result<(Chunk, Hello), Failure> {
    match Usable(token, now)
    case Err(failure) => Err(failure)
    case Ok(_) =>
      if !SafeInteger(now) then Err(BadInteger)
      else
        var hello := Hello(now, nonce);
        Ok((EncodeFrame(CLIENT_HELLO, Fields(now, nonce, ClientTag(mac, token, hello))), hello))
  }

  function AssertClock(timestamp: Timestamp, now: int, skew: int): Result<bool, Failure> {
    if !SafeInteger(now) || !SafeInteger(skew) then Err(BadInteger)
    else if timestamp - now > skew || now - timestamp > skew then Err(OutsideClock)
    else Ok(true)
  }

  function VerifyHello(mac: Mac, token: Token, frame: Chunk, now: int): Result<Hello, Failure> {
    match Usable(token, now)
    case Err(failure) => Err(failure)
    case Ok(_) =>
      match DecodeFrame(frame, CLIENT_HELLO)
      case Err(failure) => Err(failure)
      case Ok(fields) =>
        match AssertClock(fields.timestamp, now, CLOCK_SKEW_SECONDS)
        case Err(failure) => Err(failure)
        case Ok(_) =>
          var hello := Hello(fields.timestamp, fields.nonce);
          if ClientTag(mac, token, hello) != fields.mac then Err(BadMac) else Ok(hello)
  }

  function CreateAck(mac: Mac, token: Token, hello: Hello, nonce: Nonce): Chunk {
    EncodeFrame(SERVER_ACK, Fields(hello.timestamp, nonce, ServerTag(mac, token, hello, nonce)))
  }

  function VerifyAck(mac: Mac, token: Token, hello: Hello, frame: Chunk): Result<Nonce, Failure> {
    match DecodeFrame(frame, SERVER_ACK)
    case Err(failure) => Err(failure)
    case Ok(fields) =>
      if fields.timestamp != hello.timestamp then Err(TimestampChanged)
      else if ServerTag(mac, token, hello, fields.nonce) != fields.mac then Err(BadMac)
      else Ok(fields.nonce)
  }

  predicate Unexpired(token: Token, now: int) {
    token.expiresAt.Some? ==> now <= token.expiresAt.value
  }

  /**
   * Two parties with the same unexpired token and clocks at most 120 seconds apart admit
   * each other and agree on the timestamp and both nonces.
   */
  lemma HandshakeCompletes(mac: Mac, token: Token, clientNow: int, serverNow: int, clientNonce: Nonce, serverNonce: Nonce)
    requires SafeInteger(clientNow) && SafeInteger(serverNow)
    requires Unexpired(token, clientNow) && Unexpired(token, serverNow)
    requires -120 <= clientNow - serverNow <= 120
    ensures var hello := Hello(clientNow, clientNonce);
            && CreateHello(mac, token, clientNow, clientNonce).Ok?
            && CreateHello(mac, token, clientNow, clientNonce).value.1 == hello
            && VerifyHello(mac, token, CreateHello(mac, token, clientNow, clientNonce).value.0, serverNow) == Ok(hello)
            && VerifyAck(mac, token, hello, CreateAck(mac, token, hello, serverNonce)) == Ok(serverNonce)
  {
    var hello := Hello(clientNow, clientNonce);
    var fields := Fields(clientNow, clientNonce, ClientTag(mac, token, hello));
    FrameExact(EncodeFrame(CLIENT_HELLO, fields), CLIENT_HELLO, fields);
    var ack := Fields(hello.timestamp, serverNonce, ServerTag(mac, token, hello, serverNonce));
    FrameExact(EncodeFrame(SERVER_ACK, ack), SERVER_ACK, ack);
  }

  /** The server accepts exactly the authentic hellos that are timely and not expired. */
  lemma HelloAccepted(mac: Mac, token: Token, frame: Chunk, now: int, hello: Hello)
    ensures VerifyHello(mac, token, frame, now) == Ok(hello) <==>
            && Usable(token, now).Ok?
            && frame == EncodeFrame(CLIENT_HELLO, Fields(hello.timestamp, hello.clientNonce, ClientTag(mac, token, hello)))
            && SafeInteger(now)
            && -120 <= hello.timestamp - now <= 120
  {
    var fields := Fields(hello.timestamp, hello.clientNonce, ClientTag(mac, token, hello));
    FrameExact(frame, CLIENT_HELLO, fields);
  }

  /** The code does not give one tag to two different messages or secrets. */
  ghost predicate NoCollision(mac: Mac, k: seq<byte>, m: seq<byte>, k': seq<byte>, m': seq<byte>) {
    mac(k, m) == mac(k', m') ==> k == k' && m == m'
  }

  /** A client accepts the acknowledgement of a server only if it answers this very hello under the same token. */
  lemma AckAnswersHello(mac: Mac, clientToken: Token, hello: Hello, serverToken: Token, answered: Hello, serverNonce: Nonce)
    requires FreeOf(0, clientToken.peerId) && FreeOf(0, serverToken.peerId)
    requires NoCollision(mac,
                         clientToken.secret, Transcript(Server, clientToken, hello.timestamp, hello.clientNonce, Some(serverNonce)),
                         serverToken.secret, Transcript(Server, serverToken, answered.timestamp, answered.clientNonce, Some(serverNonce)))
    ensures VerifyAck(mac, clientToken, hello, CreateAck(mac, serverToken, answered, serverNonce)).Ok? <==>
            && hello == answered
            && clientToken.secret == serverToken.secret
            && clientToken.peerId == serverToken.peerId
            && clientToken.service == serverToken.service
  {
    var ack := Fields(answered.timestamp, serverNonce, ServerTag(mac, serverToken, answered, serverNonce));
    FrameExact(EncodeFrame(SERVER_ACK, ack), SERVER_ACK, ack);
    if VerifyAck(mac, clientToken, hello, CreateAck(mac, serverToken, answered, serverNonce)).Ok? {
      TranscriptInjective(Server, clientToken, hello.timestamp, hello.clientNonce, Some(serverNonce),
                          Server, serverToken, answered.timestamp, answered.clientNonce, Some(serverNonce));
    }
  }

  // ----- comparison -----

  /** Bitwise exclusive or of two non-negative numbers. */
  function Xor(a: nat, b: nat): nat
    decreases a + b
  {
    if a == 0 && b == 0 then 0
    else 2 * Xor(a / 2, b / 2) + (if a % 2 != b % 2 then 1 else 0)
  }

  /** Bitwise or. */
  function Or(a: nat, b: nat): nat
    decreases a + b
  {
    if a == 0 && b == 0 then 0
    else 2 * Or(a / 2, b / 2) + (if a % 2 == 1 || b % 2 == 1 then 1 else 0)
  }

  lemma {:induction false} XorZero(a: nat, b: nat)
    ensures Xor(a, b) == 0 <==> a == b
    decreases a + b
  {
    if a != 0 || b != 0 {
      XorZero(a / 2, b / 2);
    }
  }

  lemma {:induction false} OrZero(a: nat, b: nat)
    ensures Or(a, b) == 0 <==> a == 0 && b == 0
    decreases a + b
  {
    if a != 0 || b != 0 {
      OrZero(a / 2, b / 2);
    }
  }

  /** The byte the comparison looks at; it goes round a shorter string. */
  function At(s: Chunk, index: nat): (b: byte)
    ensures index < |s| ==> b == s[index]
  {
    if |s| == 0 then 0
    else
      IndexInside(index, |s|);
      s[index % |s|]
  }

  lemma IndexInside(index: nat, length: nat)
    requires length > 0
    ensures 0 <= index % length < length && (index < length ==> index % length == index)
  {
  }

  lemma OneMoreByte(difference: nat, left: Chunk, right: Chunk, index: nat)
    requires index < |left| || index < |right|
    requires difference == 0 <==> |left| == |right| && forall k :: 0 <= k < index ==> left[k] == right[k]
    ensures Or(difference, Xor(At(left, index), At(right, index))) == 0 <==>
            |left| == |right| && forall k :: 0 <= k < index + 1 ==> left[k] == right[k]
  {
    OrZero(difference, Xor(At(left, index), At(right, index)));
    XorZero(At(left, index), At(right, index));
  }

  /** The comparison that looks at every byte whatever it finds is equality. */
  method ConstantTimeEqual(left: Chunk, right: Chunk) returns (equal: bool)
    ensures equal <==> left == right
  {
    var difference := Xor(|left|, |right|);
    XorZero(|left|, |right|);
    var length := if |left| > |right| then |left| else |right|;
    for index := 0 to length
      invariant difference == 0 <==> |left| == |right| && forall k :: 0 <= k < index ==> left[k] == right[k]
    {
      OneMoreByte(difference, left, right, index);
      difference := Or(difference, Xor(At(left, index), At(right, index)));
    }
    equal := difference == 0;
  }
}
