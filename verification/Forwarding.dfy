/**
 * The SOCKS listener: SOCKS5 without authentication (sections 3 to 5 of RFC 1928), SOCKS4 and
 * SOCKS4a. `Negotiate` says what the whole byte stream of a client means; the reader and the
 * negotiation over it are proved to compute just that, wherever the stream is cut.
 */
module Forwarding {
  import opened Bytes
  import opened Source
  import opened BigEndian
  import opened Text
  import U = Utf8

  const GRANTED: byte := 0x5a
  const REJECTED: byte := 0x5b
  const STRING_LIMIT: nat := 1024
  const DOT: byte := 0x2e
  const COLON: byte := 0x3a

  datatype Reason =
    | ClosedEarly | UnknownVersion | NoUsableMethod | BadRequest | NotConnect | UnknownAddressType | StringTooLong

  /** A host is the text handed to the connector; `success` and `failure` are the two final replies. */
  datatype Request = Request(version: nat, host: U.Text, port: nat, success: Chunk, failure: Chunk)

  /** How a negotiation ends, what it has replied, and the bytes it has left unread. */
  datatype Session = Session(result: Result<Request, Reason>, replies: seq<Chunk>, rest: Chunk)

  /** A part that was read, or the reason why it was not, and the bytes left unread. */
  datatype Part<T> = Part(value: Result<T, Reason>, rest: Chunk)

  // ----- texts of addresses -----

  /** Decimal numbers joined by dots. */
  function Dotted(ip: Chunk): Chunk
    requires ip != []
  {
    if |ip| == 1 then Decimal(ip[0]) else Decimal(ip[0]) + [DOT] + Dotted(ip[1..])
  }

  function HexDigit(d: nat): byte
    requires d < 16
  {
    if d < 10 then 0x30 + d else 0x61 + d - 10
  }

  function Hex(n: nat): (b: Chunk)
    ensures |b| >= 1
  {
    if n < 16 then [HexDigit(n)] else Hex(n / 16) + [HexDigit(n % 16)]
  }

  function Group(ip: Chunk, i: nat): nat
    requires 2 * i + 1 < |ip|
  {
    0x100 * (ip[2 * i] as int) + ip[2 * i + 1] as int
  }

  /** Groups joined by colons, from the i-th on. */
  function ColonHex(ip: Chunk, i: nat): Chunk
    requires |ip| % 2 == 0 && 2 * i < |ip|
    decreases |ip| - 2 * i
  {
    if 2 * i + 2 == |ip| then Hex(Group(ip, i)) else Hex(Group(ip, i)) + [COLON] + ColonHex(ip, i + 1)
  }

  function Port(b: Chunk): nat
    requires |b| == 2
  {
    0x100 * (b[0] as int) + b[1] as int
  }

  // ----- what a byte stream means -----

  function Take(b: Chunk, n: nat): Part<Chunk> {
    if |b| < n then Part(Err(ClosedEarly), b) else Part(Ok(b[..n]), b[n..])
  }

  /** A string ended by a zero byte, at most `limit` bytes with that zero. */
  function TakeString(b: Chunk, limit: nat): Part<Chunk>
    decreases limit
  {
    if limit == 0 then Part(Err(StringTooLong), b)
    else if b == [] then Part(Err(ClosedEarly), b)
    else if b[0] == 0 then Part(Ok([]), b[1..])
    else
      var more := TakeString(b[1..], limit - 1);
      match more.value
      case Ok(text) => more.(value := Ok([b[0]] + text))
      case Err(_) => more
  }

  /** The text of bytes that were read. */
  function Decoded(part: Part<Chunk>): Part<U.Text> {
    match part.value
    case Ok(bytes) => Part(Ok(U.DecodeText(bytes)), part.rest)
    case Err(reason) => Part(Err(reason), part.rest)
  }

  /** The printed form of an address that was read. */
  function Printed(part: Part<Chunk>, text: U.Text): Part<U.Text> {
    match part.value
    case Ok(_) => Part(Ok(text), part.rest)
    case Err(reason) => Part(Err(reason), part.rest)
  }

  function Refused(reason: Reason, replies: seq<Chunk>, rest: Chunk): Session {
    Session(Err(reason), replies, rest)
  }

  const SOCKS5_NO_METHOD: Chunk := [0x05, 0xff]
  const SOCKS5_METHOD: Chunk := [0x05, 0x00]
  const SOCKS5_NOT_CONNECT: Chunk := [0x05, 0x07, 0x00, 0x01, 0, 0, 0, 0, 0, 0]
  const SOCKS5_BAD_ADDRESS: Chunk := [0x05, 0x08, 0x00, 0x01, 0, 0, 0, 0, 0, 0]
  const SOCKS5_SUCCESS: Chunk := [0x05, 0x00, 0x00, 0x01, 0, 0, 0, 0, 0, 0]
  const SOCKS5_FAILURE: Chunk := [0x05, 0x05, 0x00, 0x01, 0, 0, 0, 0, 0, 0]

  /** The host of a SOCKS5 request, after its address type. */
  function Host5(kind: byte, b: Chunk): Part<U.Text> {
    if kind == 1 then
      var ip := Take(b, 4);
      Printed(ip, if ip.value.Ok? then Dotted(ip.value.value) else [])
    else if kind == 3 then
      var length := Take(b, 1);
      match length.value
      case Ok(n) => Decoded(Take(length.rest, n[0]))
      case Err(reason) => Part(Err(reason), length.rest)
    else if kind == 4 then
      var ip := Take(b, 16);
      Printed(ip, if ip.value.Ok? then ColonHex(ip.value.value, 0) else [])
    else Part(Err(UnknownAddressType), b)
  }

  /** A SOCKS5 request, after the methods. */
  function Request5(b: Chunk): Session {
    var head := Take(b, 4);
    if head.value.Err? then Refused(ClosedEarly, [SOCKS5_METHOD], head.rest)
    else
      var h := head.value.value;
      if h[0] != 5 || h[2] != 0 then Refused(BadRequest, [SOCKS5_METHOD], head.rest)
      else if h[1] != 1 then Refused(NotConnect, [SOCKS5_METHOD, SOCKS5_NOT_CONNECT], head.rest)
      else
        var host := Host5(h[3], head.rest);
        match host.value
        case Err(reason) =>
          Refused(reason, if reason.UnknownAddressType? then [SOCKS5_METHOD, SOCKS5_BAD_ADDRESS] else [SOCKS5_METHOD], host.rest)
        case Ok(text) =>
          var port := Take(host.rest, 2);
          match port.value
          case Err(reason) => Refused(reason, [SOCKS5_METHOD], port.rest)
          case Ok(p) => Session(Ok(Request(5, text, Port(p), SOCKS5_SUCCESS, SOCKS5_FAILURE)), [SOCKS5_METHOD], port.rest)
  }

  function Negotiate5(b: Chunk): Session {
    var count := Take(b, 1);
    if count.value.Err? then Refused(ClosedEarly, [], count.rest)
    else
      var methods := Take(count.rest, count.value.value[0]);
      match methods.value
      case Err(reason) => Refused(reason, [], methods.rest)
      case Ok(list) => if 0 !in list then Refused(NoUsableMethod, [SOCKS5_NO_METHOD], methods.rest) else Request5(methods.rest)
  }

  /** A SOCKS4 reply. */
  function Reply4(code: byte, port: Chunk, ip: Chunk): Chunk {
    [0x00, code] + port + ip
  }

  predicate IsSocks4a(ip: Chunk)
    requires |ip| == 4
  {
    ip[0] == 0 && ip[1] == 0 && ip[2] == 0 && ip[3] != 0
  }

  function Host4(ip: Chunk, b: Chunk): Part<U.Text>
    requires |ip| == 4
  {
    if IsSocks4a(ip) then Decoded(TakeString(b, STRING_LIMIT)) else Part(Ok(Dotted(ip)), b)
  }

  function Negotiate4(command: byte, b: Chunk): Session {
    var port := Take(b, 2);
    if port.value.Err? then Refused(ClosedEarly, [], port.rest)
    else
      var ip := Take(port.rest, 4);
      if ip.value.Err? then Refused(ClosedEarly, [], ip.rest)
      else
        var user := TakeString(ip.rest, STRING_LIMIT);
        match user.value
        case Err(reason) => Refused(reason, [], user.rest)
        case Ok(_) =>
          if command != 1 then Refused(NotConnect, [Reply4(REJECTED, port.value.value, ip.value.value)], user.rest)
          else
            var host := Host4(ip.value.value, user.rest);
            match host.value
            case Err(reason) => Refused(reason, [], host.rest)
            case Ok(text) =>
              Session(Ok(Request(4, text, Port(port.value.value),
                                 Reply4(GRANTED, port.value.value, ip.value.value),
                                 Reply4(REJECTED, port.value.value, ip.value.value))), [], host.rest)
  }

  function Negotiate(b: Chunk): Session {
    var version := Take(b, 1);
    if version.value.Err? then Refused(ClosedEarly, [], version.rest)
    else if version.value.value[0] == 5 then Negotiate5(version.rest)
    else if version.value.value[0] == 4 then
      var command := Take(version.rest, 1);
      if command.value.Err? then Refused(ClosedEarly, [], command.rest)
      else Negotiate4(command.value.value[0], command.rest)
    else Refused(UnknownVersion, [], version.rest)
  }

  // ----- the reader -----

  class ByteReader {
    const source: ChunkSource
    var buffer: Chunk

    /** Everything the client has still to say, read ahead or not. */
    ghost function Unread(): Chunk
      reads this, source
    {
      buffer + Flatten(source.rest)
    }

    constructor (source: ChunkSource)
      ensures this.source == source && Unread() == Flatten(source.rest)
    {
      this.source := source;
      buffer := [];
    }

    method Read(length: nat) returns (r: Result<Chunk, Reason>)
      modifies this, source
      ensures Part(r, Unread()) == Take(old(Unread()), length)
    {
      ghost var all := Unread();
      while |buffer| < length
        invariant Unread() == all
        decreases |source.rest|
      {
        var item := source.Next();
        if item.None? {
          assert buffer + [] == buffer;
          return Err(ClosedEarly);
        }
        assert buffer + (item.value + Flatten(source.rest)) == (buffer + item.value) + Flatten(source.rest);
        buffer := buffer + item.value;
      }
      var result := buffer[..length];
      buffer := buffer[length..];
      assert all[..length] == result && all[length..] == Unread();
      return Ok(result);
    }

    /** A string is read to its zero byte, and decoded. */
    method ReadCString(limit: nat) returns (r: Result<U.Text, Reason>)
      modifies this, source
      ensures Part(r, Unread()) == Decoded(TakeString(old(Unread()), limit))
    {
      ghost var all := Unread();
      var result: Chunk := [];
      ResumeNone(TakeString(all, limit));
      while |result| < limit
        invariant |result| <= limit
        invariant TakeString(all, limit) == Resume(result, TakeString(Unread(), limit - |result|))
      {
        ghost var before := Unread();
        var b := Read(1);
        if b.Err? {
          return Err(b.error);
        }
        if b.value[0] == 0 {
          assert result + [] == result;
          return Ok(U.DecodeText(result));
        }
        ResumeOne(result, before[0], TakeString(Unread(), limit - |result| - 1));
        result := result + [b.value[0]];
      }
      return Err(StringTooLong);
    }

    /** The rest of the client's stream, for the connection. */
    method Remaining() returns (chunks: seq<Chunk>)
      modifies this, source
      ensures Flatten(chunks) == old(Unread())
    {
      ghost var all := Unread();
      chunks := [];
      if |buffer| > 0 {
        FlattenOne(buffer);
        chunks := [buffer];
        buffer := [];
      }
      assert Flatten(chunks) + Flatten(source.rest) == all;
      while true
        invariant Flatten(chunks) + Flatten(source.rest) == all
        decreases |source.rest|
      {
        var item := source.Next();
        if item.None? { return; }
        FlattenAppend(chunks, [item.value]);
        FlattenOne(item.value);
        assert Flatten(chunks) + (item.value + Flatten(source.rest)) ==
               (Flatten(chunks) + item.value) + Flatten(source.rest);
        chunks := chunks + [item.value];
      }
    }
  }

  /** A string of which the front has been read. */
  function Resume(front: Chunk, more: Part<Chunk>): Part<Chunk> {
    match more.value
    case Ok(text) => more.(value := Ok(front + text))
    case Err(_) => more
  }

  lemma ResumeOne(front: Chunk, c: byte, more: Part<Chunk>)
    ensures Resume(front, Resume([c], more)) == Resume(front + [c], more)
  {
    if more.value.Ok? {
      assert front + ([c] + more.value.value) == (front + [c]) + more.value.value;
    }
  }

  lemma ResumeNone(more: Part<Chunk>)
    ensures Resume([], more) == more
  {
    if more.value.Ok? {
      assert [] + more.value.value == more.value.value;
    }
  }

  // ----- the negotiation over the reader -----

  method NegotiateSocks5(reader: ByteReader) returns (r: Result<Request, Reason>, replies: seq<Chunk>)
    modifies reader, reader.source
    ensures Session(r, replies, reader.Unread()) == Negotiate5(old(reader.Unread()))
  {
    replies := [];
    var count := reader.Read(1);
    if count.Err? { return Err(ClosedEarly), replies; }
    var methods := reader.Read(count.value[0]);
    if methods.Err? { return Err(ClosedEarly), replies; }
    if 0 !in methods.value {
      return Err(NoUsableMethod), [SOCKS5_NO_METHOD];
    }
    r, replies := ReadRequest5(reader);
  }

  method ReadRequest5(reader: ByteReader) returns (r: Result<Request, Reason>, replies: seq<Chunk>)
    modifies reader, reader.source
    ensures Session(r, replies, reader.Unread()) == Request5(old(reader.Unread()))
  {
    replies := [SOCKS5_METHOD];
    var head := reader.Read(4);
    if head.Err? { return Err(ClosedEarly), replies; }
    var h := head.value;
    if h[0] != 5 || h[2] != 0 { return Err(BadRequest), replies; }
    if h[1] != 1 { return Err(NotConnect), replies + [SOCKS5_NOT_CONNECT]; }
    var host := ReadHost5(reader, h[3]);
    if host.Err? {
      if host.error.UnknownAddressType? { replies := replies + [SOCKS5_BAD_ADDRESS]; }
      return Err(host.error), replies;
    }
    var port := reader.Read(2);
    if port.Err? { return Err(ClosedEarly), replies; }
    return Ok(Request(5, host.value, Port(port.value), SOCKS5_SUCCESS, SOCKS5_FAILURE)), replies;
  }

  method ReadHost5(reader: ByteReader, kind: byte) returns (r: Result<U.Text, Reason>)
    modifies reader, reader.source
    ensures Part(r, reader.Unread()) == Host5(kind, old(reader.Unread()))
  {
    if kind == 1 {
      var ip := reader.Read(4);
      if ip.Err? { return Err(ip.error); }
      r := Ok(Dotted(ip.value));
    } else if kind == 3 {
      var length := reader.Read(1);
      if length.Err? { return Err(length.error); }
      var name := reader.Read(length.value[0]);
      if name.Err? { return Err(name.error); }
      r := Ok(U.DecodeText(name.value));
    } else if kind == 4 {
      var ip := reader.Read(16);
      if ip.Err? { return Err(ip.error); }
      r := Ok(ColonHex(ip.value, 0));
    } else {
      r := Err(UnknownAddressType);
    }
  }

  method NegotiateSocks4(reader: ByteReader, command: byte) returns (r: Result<Request, Reason>, replies: seq<Chunk>)
    modifies reader, reader.source
    ensures Session(r, replies, reader.Unread()) == Negotiate4(command, old(reader.Unread()))
  {
    replies := [];
    var port := reader.Read(2);
    if port.Err? { return Err(ClosedEarly), replies; }
    var ip := reader.Read(4);
    if ip.Err? { return Err(ClosedEarly), replies; }
    var user := reader.ReadCString(STRING_LIMIT);
    if user.Err? { return Err(user.error), replies; }
    if command != 1 {
      return Err(NotConnect), [Reply4(REJECTED, port.value, ip.value)];
    }
    var host: Result<U.Text, Reason> := Ok(Dotted(ip.value));
    if IsSocks4a(ip.value) {
      host := reader.ReadCString(STRING_LIMIT);
      if host.Err? { return Err(host.error), replies; }
    }
    return Ok(Request(4, host.value, Port(port.value),
                      Reply4(GRANTED, port.value, ip.value), Reply4(REJECTED, port.value, ip.value))), replies;
  }

  /**
   * The negotiation: its result, its replies and what it leaves unread depend on the bytes of
   * the client alone, not on how they are cut.
   */
  method NegotiateSocks(source: ChunkSource)
    returns (reader: ByteReader, r: Result<Request, Reason>, replies: seq<Chunk>)
    modifies source
    ensures fresh(reader) && reader.source == source
    ensures Session(r, replies, reader.Unread()) == Negotiate(Flatten(old(source.rest)))
  {
    replies := [];
    reader := new ByteReader(source);
    var version := reader.Read(1);
    if version.Err? { return reader, Err(ClosedEarly), replies; }
    if version.value[0] == 5 {
      r, replies := NegotiateSocks5(reader);
    } else if version.value[0] == 4 {
      var command := reader.Read(1);
      if command.Err? { return reader, Err(ClosedEarly), replies; }
      r, replies := NegotiateSocks4(reader, command.value[0]);
    } else {
      r := Err(UnknownVersion);
    }
  }

  /** A whole session: whoever connects is given every byte after the request, and no other. */
  method ServeSocks(source: ChunkSource) returns (r: Result<Request, Reason>, forwarded: seq<Chunk>)
    modifies source
    ensures var session := Negotiate(Flatten(old(source.rest)));
            && r == session.result
            && (r.Ok? ==> Flatten(forwarded) == session.rest)
  {
    forwarded := [];
    var reader, result, replies := NegotiateSocks(source);
    r := result;
    if r.Ok? {
      forwarded := reader.Remaining();
    }
  }

  // ----- requests as clients print them -----

  datatype Address = IPv4(ip: Chunk) | Domain(name: Chunk) | IPv6(ip: Chunk)

  predicate Printable(address: Address) {
    match address
    case IPv4(ip) => |ip| == 4
    case Domain(name) => |name| <= 0xff
    case IPv6(ip) => |ip| == 16
  }

  /** The text that reaches the connector. */
  function HostText(address: Address): U.Text
    requires Printable(address)
  {
    match address
    case IPv4(ip) => Dotted(ip)
    case Domain(name) => U.DecodeText(name)
    case IPv6(ip) => ColonHex(ip, 0)
  }

  function PrintAddress(address: Address): Chunk
    requires Printable(address)
  {
    match address
    case IPv4(ip) => [1] + ip
    case Domain(name) => [3, |name|] + name
    case IPv6(ip) => [4] + ip
  }

  function PrintPort(port: nat): Chunk {
    ToBigEndian(port, 2)
  }

  function PrintSocks5(methods: Chunk, address: Address, port: nat): Chunk
    requires |methods| <= 0xff && Printable(address)
  {
    [5, |methods|] + methods + ([5, 1, 0] + PrintAddress(address) + PrintPort(port))
  }

  lemma TakeFront(front: Chunk, more: Chunk)
    ensures Take(front + more, |front|) == Part(Ok(front), more)
  {
  }

  lemma PortReadBack(port: nat)
    requires port <= 0xffff
    ensures Port(PrintPort(port)) == port
  {
    var b := PrintPort(port);
    assert Pow256(2) == 0x1_0000;
    ReadBack(port, 2);
    assert b[..1] == [b[0]];
    assert FromBigEndian([b[0]]) == 0x100 * FromBigEndian([]) + b[0];
  }

  lemma Host5Printed(address: Address, more: Chunk)
    requires Printable(address)
    ensures Host5(PrintAddress(address)[0], PrintAddress(address)[1..] + more) == Part(Ok(HostText(address)), more)
  {
    match address
    case IPv4(ip) =>
      assert PrintAddress(address)[1..] == ip;
      TakeFront(ip, more);
    case Domain(name) =>
      assert PrintAddress(address)[1..] + more == [|name|] + (name + more);
      TakeFront([|name|], name + more);
      TakeFront(name, more);
    case IPv6(ip) =>
      assert PrintAddress(address)[1..] == ip;
      TakeFront(ip, more);
  }

  lemma Request5Printed(address: Address, port: nat, application: Chunk)
    requires Printable(address) && port <= 0xffff
    ensures Request5([5, 1, 0] + PrintAddress(address) + PrintPort(port) + application) ==
            Session(Ok(Request(5, HostText(address), port, SOCKS5_SUCCESS, SOCKS5_FAILURE)), [SOCKS5_METHOD], application)
  {
    var printed := PrintAddress(address);
    var head := [5, 1, 0, printed[0]];
    var tail := PrintPort(port) + application;
    assert printed == [printed[0]] + printed[1..];
    assert [5, 1, 0] + printed + PrintPort(port) + application == head + (printed[1..] + tail);
    TakeFront(head, printed[1..] + tail);
    Host5Printed(address, tail);
    TakeFront(PrintPort(port), application);
    PortReadBack(port);
  }

  /** A printed SOCKS5 CONNECT is read back with its port and the text of its host, and every byte behind it is left unread. */
  lemma Socks5RoundTrip(methods: Chunk, address: Address, port: nat, application: Chunk)
    requires |methods| <= 0xff && 0 in methods && Printable(address) && port <= 0xffff
    ensures Negotiate(PrintSocks5(methods, address, port) + application) ==
            Session(Ok(Request(5, HostText(address), port, SOCKS5_SUCCESS, SOCKS5_FAILURE)), [SOCKS5_METHOD], application)
  {
    var request := [5, 1, 0] + PrintAddress(address) + PrintPort(port) + application;
    assert PrintSocks5(methods, address, port) + application == [5] + ([|methods|] + (methods + request));
    TakeFront([5], [|methods|] + (methods + request));
    TakeFront([|methods|], methods + request);
    TakeFront(methods, request);
    Request5Printed(address, port, application);
  }

  predicate IsText(text: Chunk) {
    FreeOf(0, text) && |text| < STRING_LIMIT
  }

  /** A zero-ended string is read back if it fits, and is refused if it does not. */
  lemma {:induction false} StringReadBack(text: Chunk, more: Chunk, limit: nat)
    requires FreeOf(0, text)
    ensures |text| < limit ==> TakeString(text + [0] + more, limit) == Part(Ok(text), more)
    ensures |text| >= limit ==> TakeString(text + [0] + more, limit).value == Err(StringTooLong)
    ensures |text| < limit ==> Decoded(TakeString(text + [0] + more, limit)) == Part(Ok(U.DecodeText(text)), more)
    decreases limit
  {
    var b := text + [0] + more;
    if limit > 0 && text != [] {
      assert b[1..] == text[1..] + [0] + more;
      StringReadBack(text[1..], more, limit - 1);
      assert text == [text[0]] + text[1..];
    } else if limit > 0 {
      assert b[1..] == more;
    }
  }

  /** SOCKS4 with an address, and SOCKS4a with a name behind an address 0.0.0.x. */
  function PrintSocks4(port: nat, ip: Chunk, user: Chunk, name: Option<Chunk>): Chunk {
    [4] + ([1] + (PrintPort(port) + (ip + (user + [0] + PrintName(name)))))
  }

  function PrintName(name: Option<Chunk>): Chunk {
    match name case Some(n) => n + [0] case None => []
  }

  /** The text of a SOCKS4 host that reaches the connector. */
  function HostText4(ip: Chunk, name: Option<Chunk>): U.Text
    requires ip != []
  {
    match name case Some(n) => U.DecodeText(n) case None => Dotted(ip)
  }

  lemma Host4Printed(ip: Chunk, name: Option<Chunk>, application: Chunk)
    requires |ip| == 4 && (name.Some? <==> IsSocks4a(ip)) && (name.Some? ==> IsText(name.value))
    ensures Host4(ip, PrintName(name) + application) ==
            Part(Ok(HostText4(ip, name)), application)
  {
    if name.Some? {
      StringReadBack(name.value, application, STRING_LIMIT);
    } else {
      assert [] + application == application;
    }
  }

  lemma Request4Printed(port: nat, ip: Chunk, user: Chunk, name: Option<Chunk>, application: Chunk)
    requires port <= 0xffff && |ip| == 4 && IsText(user)
    requires name.Some? <==> IsSocks4a(ip)
    requires name.Some? ==> IsText(name.value)
    ensures Negotiate4(1, PrintPort(port) + (ip + (user + [0] + (PrintName(name) + application)))) ==
            Session(Ok(Request(4, HostText4(ip, name), port,
                               Reply4(GRANTED, PrintPort(port), ip), Reply4(REJECTED, PrintPort(port), ip))),
                    [], application)
  {
    var named := PrintName(name) + application;
    TakeFront(PrintPort(port), ip + (user + [0] + named));
    TakeFront(ip, user + [0] + named);
    StringReadBack(user, named, STRING_LIMIT);
    PortReadBack(port);
    Host4Printed(ip, name, application);
  }

  lemma CommandRead(request: Chunk)
    ensures Negotiate([4] + ([1] + request)) == Negotiate4(1, request)
  {
    TakeFront([4], [1] + request);
    TakeFront([1], request);
  }

  lemma Reassociate(u: Chunk, v: Chunk, a: Chunk, b: Chunk, c: Chunk, d: Chunk, e: Chunk)
    ensures (u + (v + (a + (b + (c + d))))) + e == u + (v + (a + (b + (c + (d + e)))))
  {
    assert (c + d) + e == c + (d + e);
    assert (b + (c + d)) + e == b + (c + (d + e));
    assert (a + (b + (c + d))) + e == a + (b + (c + (d + e)));
    assert (v + (a + (b + (c + d)))) + e == v + (a + (b + (c + (d + e))));
  }

  /** A printed SOCKS4 or SOCKS4a CONNECT is read back with its port and the text of its host, and nothing behind it is touched. */
  lemma Socks4RoundTrip(port: nat, ip: Chunk, user: Chunk, name: Option<Chunk>, application: Chunk)
    requires port <= 0xffff && |ip| == 4 && IsText(user)
    requires name.Some? <==> IsSocks4a(ip)
    requires name.Some? ==> IsText(name.value)
    ensures Negotiate(PrintSocks4(port, ip, user, name) + application) ==
            Session(Ok(Request(4, HostText4(ip, name), port,
                               Reply4(GRANTED, PrintPort(port), ip), Reply4(REJECTED, PrintPort(port), ip))),
                    [], application)
  {
    var request := PrintPort(port) + (ip + (user + [0] + (PrintName(name) + application)));
    Reassociate([4], [1], PrintPort(port), ip, user + [0], PrintName(name), application);
    CommandRead(request);
    Request4Printed(port, ip, user, name, application);
  }

  // ----- bytes that come later change nothing -----

  /** A part that is not cut short is read the same with more bytes behind it. */
  ghost predicate Settles<T>(p: Part<T>, q: Part<T>, later: Chunk) {
    p.value != Err(ClosedEarly) ==> q == p.(rest := p.rest + later)
  }

  lemma TakeSettles(b: Chunk, n: nat, later: Chunk)
    ensures Settles(Take(b, n), Take(b + later, n), later)
  {
    if n <= |b| {
      assert (b + later)[..n] == b[..n];
      assert (b + later)[n..] == b[n..] + later;
    }
  }

  lemma {:induction false} TakeStringSettles(b: Chunk, limit: nat, later: Chunk)
    ensures Settles(TakeString(b, limit), TakeString(b + later, limit), later)
    decreases limit
  {
    if limit > 0 && b != [] {
      assert (b + later)[1..] == b[1..] + later;
      TakeStringSettles(b[1..], limit - 1, later);
    }
  }

  lemma Host5Settles(kind: byte, b: Chunk, later: Chunk)
    ensures Settles(Host5(kind, b), Host5(kind, b + later), later)
  {
    TakeSettles(b, 4, later);
    TakeSettles(b, 16, later);
    TakeSettles(b, 1, later);
    if |b| > 0 {
      TakeSettles(b[1..], b[0], later);
      assert (b + later)[1..] == b[1..] + later;
    }
  }

  ghost predicate SessionSettles(s: Session, t: Session, later: Chunk) {
    s.result != Err(ClosedEarly) ==> t == s.(rest := s.rest + later)
  }

  lemma Request5Settles(b: Chunk, later: Chunk)
    ensures SessionSettles(Request5(b), Request5(b + later), later)
  {
    TakeSettles(b, 4, later);
    if |b| >= 4 {
      Host5Settles(b[3], b[4..], later);
      var host := Host5(b[3], b[4..]);
      TakeSettles(host.rest, 2, later);
    }
  }

  lemma Negotiate5Settles(b: Chunk, later: Chunk)
    ensures SessionSettles(Negotiate5(b), Negotiate5(b + later), later)
  {
    TakeSettles(b, 1, later);
    if |b| >= 1 {
      TakeSettles(b[1..], b[0], later);
      if |b[1..]| >= b[0] {
        Request5Settles(b[1..][b[0]..], later);
      }
    }
  }

  lemma Negotiate4Settles(command: byte, b: Chunk, later: Chunk)
    ensures SessionSettles(Negotiate4(command, b), Negotiate4(command, b + later), later)
  {
    TakeSettles(b, 2, later);
    if |b| >= 2 {
      TakeSettles(b[2..], 4, later);
      if |b[2..]| >= 4 {
        var more := b[2..][4..];
        TakeStringSettles(more, STRING_LIMIT, later);
        TakeStringSettles(TakeString(more, STRING_LIMIT).rest, STRING_LIMIT, later);
      }
    }
  }

  /**
   * A negotiation that has come to its end, granted or refused, has not looked at what the
   * client says later: those bytes only join what is left unread.
   */
  lemma LaterBytesUntouched(b: Chunk, later: Chunk)
    ensures SessionSettles(Negotiate(b), Negotiate(b + later), later)
  {
    TakeSettles(b, 1, later);
    if |b| >= 1 {
      Negotiate5Settles(b[1..], later);
      TakeSettles(b[1..], 1, later);
      if |b[1..]| >= 1 {
        Negotiate4Settles(b[1..][0], b[1..][1..], later);
      }
    }
  }

  // ----- different addresses have different texts -----

  lemma {:induction false} DottedInjective(ip: Chunk, other: Chunk)
    requires |ip| == |other| && ip != []
    requires Dotted(ip) + [DOT] == Dotted(other) + [DOT]
    ensures ip == other
    decreases |ip|
  {
    var x, y := Decimal(ip[0]), Decimal(other[0]);
    DecimalReadBack(ip[0]);
    DecimalReadBack(other[0]);
    if |ip| == 1 {
      assert x + [DOT] + [] == y + [DOT] + [];
      FirstField(DOT, x, [], y, []);
    } else {
      var u, v := Dotted(ip[1..]) + [DOT], Dotted(other[1..]) + [DOT];
      assert Dotted(ip) + [DOT] == x + [DOT] + u;
      assert Dotted(other) + [DOT] == y + [DOT] + v;
      FirstField(DOT, x, u, y, v);
      DottedInjective(ip[1..], other[1..]);
    }
    assert ip == [ip[0]] + ip[1..] && other == [other[0]] + other[1..];
  }

  function HexValue(c: byte): int {
    if c < 0x61 then c - 0x30 else c - 0x61 + 10
  }

  function ReadHex(b: Chunk): int {
    if b == [] then 0 else 16 * ReadHex(b[..|b| - 1]) + HexValue(b[|b| - 1])
  }

  lemma {:induction false} HexReadBack(n: nat)
    ensures ReadHex(Hex(n)) == n
    ensures FreeOf(COLON, Hex(n))
  {
    var b := Hex(n);
    if n < 16 {
      assert b[..|b| - 1] == [];
    } else {
      HexReadBack(n / 16);
      assert b[..|b| - 1] == Hex(n / 16);
    }
  }

  lemma {:induction false} ColonHexInjective(ip: Chunk, other: Chunk, i: nat)
    requires |ip| == |other| && |ip| % 2 == 0 && 2 * i < |ip|
    requires ColonHex(ip, i) + [COLON] == ColonHex(other, i) + [COLON]
    ensures ip[2 * i..] == other[2 * i..]
    decreases |ip| - 2 * i
  {
    var x, y := Hex(Group(ip, i)), Hex(Group(other, i));
    HexReadBack(Group(ip, i));
    HexReadBack(Group(other, i));
    if 2 * i + 2 == |ip| {
      assert x + [COLON] + [] == y + [COLON] + [];
      FirstField(COLON, x, [], y, []);
    } else {
      var u, v := ColonHex(ip, i + 1) + [COLON], ColonHex(other, i + 1) + [COLON];
      assert ColonHex(ip, i) + [COLON] == x + [COLON] + u;
      assert ColonHex(other, i) + [COLON] == y + [COLON] + v;
      FirstField(COLON, x, u, y, v);
      ColonHexInjective(ip, other, i + 1);
    }
    assert ip[2 * i] == other[2 * i] && ip[2 * i + 1] == other[2 * i + 1];
    assert ip[2 * i..] == [ip[2 * i], ip[2 * i + 1]] + ip[2 * i + 2..];
    assert other[2 * i..] == [other[2 * i], other[2 * i + 1]] + other[2 * i + 2..];
  }

  /** The name of an address, if it has one, that the decoder leaves as it is. */
  ghost predicate Faithful(address: Address) {
    address.Domain? ==> U.WellFormed(address.name) && !U.Marked(address.name)
  }

  /**
   * Addresses of one kind reach the connector as the same text exactly when they are the same;
   * of names, those that are well-formed UTF-8 without a byte order mark in front.
   */
  lemma HostTextInjective(address: Address, other: Address)
    requires Printable(address) && Printable(other) && Faithful(address) && Faithful(other)
    requires address.IPv4? == other.IPv4? && address.IPv6? == other.IPv6?
    ensures HostText(address) == HostText(other) <==> address == other
  {
    if HostText(address) == HostText(other) {
      match address
      case IPv4(ip) => DottedInjective(ip, other.ip);
      case Domain(name) => U.TextInjective(name, other.name);
      case IPv6(ip) =>
        ColonHexInjective(ip, other.ip, 0);
        assert ip[0..] == ip && other.ip[0..] == other.ip;
    }
  }

  /**
   * The host that a client names comes back, byte for byte, exactly when the name is
   * well-formed UTF-8 and does not begin with the byte order mark; and a client that writes a
   * text gets just that text unless it begins with the mark.
   */
  lemma NameComesBack(methods: Chunk, name: Chunk, port: nat, application: Chunk)
    requires |methods| <= 0xff && 0 in methods && |name| <= 0xff && port <= 0xffff
    ensures var session := Negotiate(PrintSocks5(methods, Domain(name), port) + application);
            && session.result.Ok?
            && (U.Encode(session.result.value.host) == name <==> U.WellFormed(name) && !U.Marked(name))
            && forall text: U.Text :: U.Encode(text) == name ==>
                 (session.result.value.host == text <==> !(text != [] && text[0] == U.BYTE_ORDER_MARK))
  {
    Socks5RoundTrip(methods, Domain(name), port, application);
    U.ComesBack(name);
    forall text: U.Text | U.Encode(text) == name
      ensures U.DecodeText(name) == text <==> !(text != [] && text[0] == U.BYTE_ORDER_MARK)
    {
      U.TextComesBack(text);
    }
  }

  /** The same for the name of a SOCKS4a request. */
  lemma Socks4aNameComesBack(port: nat, ip: Chunk, user: Chunk, name: Chunk, application: Chunk)
    requires port <= 0xffff && |ip| == 4 && IsSocks4a(ip) && IsText(user) && IsText(name)
    ensures var session := Negotiate(PrintSocks4(port, ip, user, Some(name)) + application);
            && session.result.Ok?
            && (U.Encode(session.result.value.host) == name <==> U.WellFormed(name) && !U.Marked(name))
  {
    Socks4RoundTrip(port, ip, user, Some(name), application);
    U.ComesBack(name);
  }

  /** Two requests for different names that reach the connector as one, and a name that reaches it as another. */
  lemma NamesAreConfused(methods: Chunk, port: nat, application: Chunk)
    requires |methods| <= 0xff && 0 in methods && port <= 0xffff
    ensures var x := Negotiate(PrintSocks5(methods, Domain([0xFF]), port) + application);
            var y := Negotiate(PrintSocks5(methods, Domain([0xFE]), port) + application);
            x == y && x.result.Ok? && x.result.value.host == [U.REPLACEMENT]
    ensures var z := Negotiate(PrintSocks5(methods, Domain([0xEF, 0xBB, 0xBF, 0x61]), port) + application);
            z.result.Ok? && z.result.value.host == [0x61]
  {
    U.NamesThatDoNotComeBack();
    Socks5RoundTrip(methods, Domain([0xFF]), port, application);
    Socks5RoundTrip(methods, Domain([0xFE]), port, application);
    Socks5RoundTrip(methods, Domain([0xEF, 0xBB, 0xBF, 0x61]), port, application);
  }
}
