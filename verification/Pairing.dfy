/**
 * The text form of pairing tokens (base64url without padding, section 5 of RFC 4648) and the
 * rotating rendezvous windows in which a listener and a client look for each other.
 */
module Pairing {
  import opened Bytes
  import Text

  // ----- base64 as the platform does it -----

  type Sextet = n: nat | n < 64

  /** The letter of six bits, in the standard or in the URL-safe alphabet. */
  function Letter(v: Sextet, url: bool): char {
    if v < 26 then (0x41 + v) as char
    else if v < 52 then (0x61 + v - 26) as char
    else if v < 62 then (0x30 + v - 52) as char
    else if v == 62 then (if url then '-' else '+')
    else if url then '_' else '/'
  }

  /** The six bits of a letter of the standard or of the URL-safe alphabet. */
  function Value(c: char, url: bool): Option<Sextet> {
    if 'A' <= c <= 'Z' then Some(c as int - 0x41)
    else if 'a' <= c <= 'z' then Some(c as int - 0x61 + 26)
    else if '0' <= c <= '9' then Some(c as int - 0x30 + 52)
    else if c == (if url then '-' else '+') then Some(62)
    else if c == (if url then '_' else '/') then Some(63)
    else None
  }

  /** Six bits from the end of one byte and the start of the next. */
  function First(a: byte): Sextet {
    (a as int) / 4
  }

  function Second(a: byte, b: byte): Sextet {
    (a as int) % 4 * 16 + (b as int) / 16
  }

  function Third(b: byte, c: byte): Sextet {
    (b as int) % 16 * 4 + (c as int) / 64
  }

  function Fourth(c: byte): Sextet {
    (c as int) % 64
  }

  /** The bytes as groups of six bits; a short last group is filled up with zero bits. */
  function Sextets(b: Chunk): seq<Sextet>
    decreases |b|
  {
    if |b| == 0 then []
    else if |b| == 1 then [First(b[0]), Second(b[0], 0)]
    else if |b| == 2 then [First(b[0]), Second(b[0], b[1]), Third(b[1], 0)]
    else [First(b[0]), Second(b[0], b[1]), Third(b[1], b[2]), Fourth(b[2])] + Sextets(b[3..])
  }

  function Upper(p: Sextet, q: Sextet): byte {
    (p * 4 + q / 16) as byte
  }

  function Middle(q: Sextet, r: Sextet): byte {
    (q % 16 * 16 + r / 4) as byte
  }

  function Lower(r: Sextet, t: Sextet): byte {
    (r % 4 * 64 + t) as byte
  }

  /** The bytes of groups of six bits; leftover bits are dropped. */
  function FromSextets(s: seq<Sextet>): Chunk
    requires |s| % 4 != 1
    decreases |s|
  {
    if |s| == 0 then []
    else if |s| == 2 then [Upper(s[0], s[1])]
    else if |s| == 3 then [Upper(s[0], s[1]), Middle(s[1], s[2])]
    else [Upper(s[0], s[1]), Middle(s[1], s[2]), Lower(s[2], s[3])] + FromSextets(s[4..])
  }

  function Padding(n: nat): string {
    seq((4 - n % 4) % 4, _ => '=')
  }

  function Letters(s: seq<Sextet>, url: bool): (text: string)
    ensures |text| == |s|
  {
    seq(|s|, i requires 0 <= i < |s| => Letter(s[i], url))
  }

  function Btoa(b: Chunk): string {
    Letters(Sextets(b), false) + Padding(|Sextets(b)|)
  }

  predicate AllLetters(text: string, url: bool) {
    forall i :: 0 <= i < |text| ==> Value(text[i], url).Some?
  }

  function Values(text: string, url: bool): (s: seq<Sextet>)
    requires AllLetters(text, url)
    ensures |s| == |text|
  {
    seq(|text|, i requires 0 <= i < |text| => Value(text[i], url).value)
  }

  /** At most two padding characters, at the end of text of a whole number of groups. */
  function Unpad(text: string): string {
    if |text| % 4 != 0 then text
    else if |text| >= 2 && text[|text| - 1] == '=' && text[|text| - 2] == '=' then text[..|text| - 2]
    else if |text| >= 1 && text[|text| - 1] == '=' then text[..|text| - 1]
    else text
  }

  function Atob(text: string): Result<Chunk, string> {
    var t := Unpad(text);
    if |t| % 4 == 1 || !AllLetters(t, false) then Err("Invalid character")
    else Ok(FromSextets(Values(t, false)))
  }

  // ----- base64url -----

  function Replaced(text: string, from: char, to: char): string {
    seq(|text|, i requires 0 <= i < |text| => if text[i] == from then to else text[i])
  }

  function StripPadding(text: string): string {
    if text != "" && text[|text| - 1] == '=' then StripPadding(text[..|text| - 1]) else text
  }

  function Base64UrlEncode(b: Chunk): string {
    StripPadding(Replaced(Replaced(Btoa(b), '+', '-'), '/', '_'))
  }

  /** The characters that trimming removes. */
  predicate IsSpace(c: char) {
    Text.IsSpace(c as int)
  }

  function Trim(text: string): string
    decreases |text|
  {
    if text == "" then text
    else if IsSpace(text[0]) then Trim(text[1..])
    else if IsSpace(text[|text| - 1]) then Trim(text[..|text| - 1])
    else text
  }

  function Base64UrlDecode(value: string): Result<Chunk, string> {
    var text := Trim(value);
    if !AllLetters(text, true) then Err("Invalid base64url data")
    else Atob(Replaced(Replaced(text, '-', '+'), '_', '/') + Padding(|text|))
  }

  // ----- sextets -----

  lemma BytesReadBack(a: byte, b: byte, c: byte)
    ensures Upper(First(a), Second(a, b)) == a
    ensures Middle(Second(a, b), Third(b, c)) == b
    ensures Lower(Third(b, c), Fourth(c)) == c
  {
  }

  lemma {:induction false} SextetsCount(b: Chunk)
    ensures |Sextets(b)| % 4 != 1
    decreases |b|
  {
    if |b| >= 3 {
      SextetsCount(b[3..]);
    }
  }

  lemma ShortGroups(p: Sextet, q: Sextet, r: Sextet)
    ensures FromSextets([p, q]) == [Upper(p, q)]
    ensures FromSextets([p, q, r]) == [Upper(p, q), Middle(q, r)]
  {
  }

  lemma ShortChunks(x: byte, y: byte)
    ensures Sextets([x]) == [First(x), Second(x, 0)]
    ensures Sextets([x, y]) == [First(x), Second(x, y), Third(y, 0)]
  {
  }

  lemma ShortReadBack(x: byte, y: byte)
    ensures FromSextets(Sextets([])) == []
    ensures FromSextets(Sextets([x])) == [x]
    ensures FromSextets(Sextets([x, y])) == [x, y]
  {
    ShortChunks(x, y);
    ShortGroups(First(x), Second(x, 0), 0);
    ShortGroups(First(x), Second(x, y), Third(y, 0));
    BytesReadBack(x, 0, 0);
    BytesReadBack(x, y, 0);
  }

  lemma {:induction false} SextetsReadBack(b: Chunk)
    ensures |Sextets(b)| % 4 != 1 && FromSextets(Sextets(b)) == b
    decreases |b|
  {
    SextetsCount(b);
    if |b| >= 3 {
      SextetsReadBack(b[3..]);
      BytesReadBack(b[0], b[1], b[2]);
      GroupReadBack(First(b[0]), Second(b[0], b[1]), Third(b[1], b[2]), Fourth(b[2]), Sextets(b[3..]));
      assert b == [b[0], b[1], b[2]] + b[3..];
    } else if |b| == 2 {
      ShortReadBack(b[0], b[1]);
      assert b == [b[0], b[1]];
    } else if |b| == 1 {
      ShortReadBack(b[0], 0);
      assert b == [b[0]];
    } else {
      ShortReadBack(0, 0);
    }
  }

  lemma GroupReadBack(p: Sextet, q: Sextet, r: Sextet, t: Sextet, rest: seq<Sextet>)
    requires |rest| % 4 != 1
    ensures |[p, q, r, t] + rest| % 4 != 1
    ensures FromSextets([p, q, r, t] + rest) == [Upper(p, q), Middle(q, r), Lower(r, t)] + FromSextets(rest)
  {
    var s := [p, q, r, t] + rest;
    assert s[4..] == rest;
    assert s[0] == p && s[1] == q && s[2] == r && s[3] == t;
  }

  /** The bits that FromSextets drops. */
  function Leftover(s: seq<Sextet>): nat
    requires |s| % 4 != 1
  {
    if |s| % 4 == 2 then s[|s| - 1] % 16
    else if |s| % 4 == 3 then s[|s| - 1] % 4
    else 0
  }

  lemma SextetsWritten(p: Sextet, q: Sextet, r: Sextet, t: Sextet)
    ensures First(Upper(p, q)) == p
    ensures Second(Upper(p, q), Middle(q, r)) == q
    ensures Third(Middle(q, r), Lower(r, t)) == r
    ensures Fourth(Lower(r, t)) == t
  {
  }

  lemma LastSextetsWritten(p: Sextet, q: Sextet, r: Sextet)
    ensures Second(Upper(p, q), 0) == q <==> q % 16 == 0
    ensures Third(Middle(q, r), 0) == r <==> r % 4 == 0
  {
  }

  lemma GroupWritten(x: byte, y: byte, z: byte, rest: Chunk)
    ensures Sextets([x, y, z] + rest) == [First(x), Second(x, y), Third(y, z), Fourth(z)] + Sextets(rest)
  {
    var b := [x, y, z] + rest;
    assert b[3..] == rest;
    assert b[0] == x && b[1] == y && b[2] == z;
  }

  lemma ShortLeftover(p: Sextet, q: Sextet, r: Sextet)
    ensures Leftover([p, q]) == q % 16 && Leftover([p, q, r]) == r % 4
  {
  }

  lemma ShortWriteBack(p: Sextet, q: Sextet, r: Sextet)
    ensures Sextets(FromSextets([])) == []
    ensures Sextets(FromSextets([p, q])) == [p, q] <==> Leftover([p, q]) == 0
    ensures Sextets(FromSextets([p, q, r])) == [p, q, r] <==> Leftover([p, q, r]) == 0
  {
    ShortGroups(p, q, r);
    ShortChunks(Upper(p, q), Middle(q, r));
    SextetsWritten(p, q, r, 0);
    LastSextetsWritten(p, q, r);
    ShortLeftover(p, q, r);
  }

  lemma LeftoverOfRest(s: seq<Sextet>)
    requires |s| >= 4 && |s| % 4 != 1
    ensures |s[4..]| % 4 != 1 && Leftover(s[4..]) == Leftover(s)
  {
    var rest := s[4..];
    assert |rest| % 4 == |s| % 4;
    if rest != [] {
      assert rest[|rest| - 1] == s[|s| - 1];
    }
  }

  /** Encoding what was decoded gives the sextets back exactly when no set bit was dropped. */
  lemma {:induction false} SextetsWriteBack(s: seq<Sextet>)
    requires |s| % 4 != 1
    ensures Sextets(FromSextets(s)) == s <==> Leftover(s) == 0
    decreases |s|
  {
    if |s| >= 4 {
      LeftoverOfRest(s);
      SextetsWriteBack(s[4..]);
      GroupWriteBack(s[0], s[1], s[2], s[3], s[4..]);
      assert s == [s[0], s[1], s[2], s[3]] + s[4..];
    } else if |s| == 3 {
      assert s == [s[0], s[1], s[2]];
      ShortWriteBack(s[0], s[1], s[2]);
    } else if |s| == 2 {
      assert s == [s[0], s[1]];
      ShortWriteBack(s[0], s[1], 0);
    }
  }

  lemma GroupWriteBack(p: Sextet, q: Sextet, r: Sextet, t: Sextet, rest: seq<Sextet>)
    requires |rest| % 4 != 1
    ensures |[p, q, r, t] + rest| % 4 != 1
    ensures Sextets(FromSextets([p, q, r, t] + rest)) == [p, q, r, t] + rest <==> Sextets(FromSextets(rest)) == rest
  {
    GroupReadBack(p, q, r, t, rest);
    SextetsWritten(p, q, r, t);
    GroupWritten(Upper(p, q), Middle(q, r), Lower(r, t), FromSextets(rest));
    SamePrefix([p, q, r, t], Sextets(FromSextets(rest)), rest);
  }

  lemma SamePrefix(front: seq<Sextet>, a: seq<Sextet>, b: seq<Sextet>)
    ensures front + a == front + b <==> a == b
  {
    if front + a == front + b {
      assert (front + a)[|front|..] == a && (front + b)[|front|..] == b;
    }
  }

  // ----- texts -----

  lemma LetterFacts(v: Sextet, url: bool)
    ensures Value(Letter(v, url), url) == Some(v)
    ensures Letter(v, url) != '=' && !IsSpace(Letter(v, url))
  {
  }

  lemma ValueFacts(c: char, url: bool)
    requires Value(c, url).Some?
    ensures Letter(Value(c, url).value, url) == c
  {
  }

  lemma LettersValues(s: seq<Sextet>, url: bool)
    ensures AllLetters(Letters(s, url), url) && Values(Letters(s, url), url) == s
  {
    forall i | 0 <= i < |s|
      ensures Value(Letters(s, url)[i], url) == Some(s[i])
    {
      LetterFacts(s[i], url);
    }
  }

  lemma ValuesLetters(text: string, url: bool)
    requires AllLetters(text, url)
    ensures Letters(Values(text, url), url) == text
  {
    forall i | 0 <= i < |text|
      ensures Letter(Values(text, url)[i], url) == text[i]
    {
      ValueFacts(text[i], url);
    }
  }

  /** The two replacements turn one alphabet into the other and leave padding alone. */
  lemma ReplacedLetters(s: seq<Sextet>, n: nat)
    ensures Replaced(Replaced(Letters(s, false) + Padding(n), '+', '-'), '/', '_') == Letters(s, true) + Padding(n)
    ensures Replaced(Replaced(Letters(s, true), '-', '+'), '_', '/') == Letters(s, false)
  {
  }

  lemma {:induction false} StripsPadding(s: seq<Sextet>, k: nat)
    ensures StripPadding(Letters(s, true) + seq(k, _ => '=')) == Letters(s, true)
  {
    var text := Letters(s, true) + seq(k, _ => '=');
    if k > 0 {
      assert text[..|text| - 1] == Letters(s, true) + seq(k - 1, _ => '=');
      StripsPadding(s, k - 1);
    } else {
      assert text == Letters(s, true);
      if s != [] {
        LetterFacts(s[|s| - 1], true);
      }
    }
  }

  lemma EncodedText(b: Chunk)
    ensures Base64UrlEncode(b) == Letters(Sextets(b), true)
  {
    ReplacedLetters(Sextets(b), |Sextets(b)|);
    StripsPadding(Sextets(b), (4 - |Sextets(b)| % 4) % 4);
    assert Padding(|Sextets(b)|) == seq((4 - |Sextets(b)| % 4) % 4, _ => '=');
  }

  lemma LastLetter(s: seq<Sextet>, padding: string)
    requires s != []
    ensures (Letters(s, false) + padding)[|s| - 1] != '='
  {
    LetterFacts(s[|s| - 1], false);
  }

  lemma UnpadsPadding(s: seq<Sextet>)
    requires |s| % 4 != 1
    ensures Unpad(Letters(s, false) + Padding(|s|)) == Letters(s, false)
  {
    var text := Letters(s, false) + Padding(|s|);
    if s != [] {
      LastLetter(s, Padding(|s|));
    }
    if |s| % 4 == 0 {
      assert text == Letters(s, false);
    } else if |s| % 4 == 3 {
      assert text[..|text| - 1] == Letters(s, false);
    } else {
      assert text[..|text| - 2] == Letters(s, false);
    }
  }

  /** One padding character too many is left where nothing can decode it. */
  lemma LoneLetterFails(s: seq<Sextet>)
    requires |s| % 4 == 1
    ensures Atob(Letters(s, false) + Padding(|s|)).Err?
  {
    var text := Letters(s, false) + Padding(|s|);
    var t := Unpad(text);
    assert |text| == |s| + 3 && t == text[..|text| - 2];
    assert t[|t| - 1] == '=' && Value('=', false).None?;
  }

  lemma NothingToTrim(text: string)
    requires AllLetters(text, true)
    ensures Trim(text) == text
  {
    if text != "" {
      ValueFacts(text[0], true);
      ValueFacts(text[|text| - 1], true);
      LetterFacts(Value(text[0], true).value, true);
      LetterFacts(Value(text[|text| - 1], true).value, true);
    }
  }

  /** What a decoder makes of any text: only letters, and not one too many. */
  lemma DecodedText(value: string)
    ensures Base64UrlDecode(value).Ok? <==> AllLetters(Trim(value), true) && |Trim(value)| % 4 != 1
    ensures Base64UrlDecode(value).Ok? ==> Base64UrlDecode(value).value == FromSextets(Values(Trim(value), true))
  {
    var text := Trim(value);
    if AllLetters(text, true) {
      var s := Values(text, true);
      ValuesLetters(text, true);
      ReplacedLetters(s, 0);
      if |s| % 4 == 1 {
        LoneLetterFails(s);
      } else {
        UnpadsPadding(s);
        LettersValues(s, false);
      }
    }
  }

  /** Every byte string survives its text form. */
  lemma Base64UrlRoundTrip(b: Chunk)
    ensures Base64UrlDecode(Base64UrlEncode(b)) == Ok(b)
  {
    var text := Base64UrlEncode(b);
    EncodedText(b);
    SextetsReadBack(b);
    LettersValues(Sextets(b), true);
    NothingToTrim(text);
    DecodedText(text);
  }

  /** A decodable text is the text form of its bytes exactly when it drops no set bit. */
  lemma Base64UrlCanonical(value: string)
    requires Base64UrlDecode(value).Ok?
    ensures DecodedLeftover(value) == 0 <==> Base64UrlEncode(Base64UrlDecode(value).value) == Trim(value)
  {
    DecodedText(value);
    var s := Values(Trim(value), true);
    var b := FromSextets(s);
    SextetsWriteBack(s);
    EncodedText(b);
    ValuesLetters(Trim(value), true);
    LettersValues(Sextets(b), true);
  }

  /** The bits that decoding drops; 0 for text that does not decode. */
  function DecodedLeftover(value: string): nat {
    var text := Trim(value);
    if AllLetters(text, true) && |text| % 4 != 1 then Leftover(Values(text, true)) else 0
  }

  lemma PairOfLetters(p: Sextet, q: Sextet)
    ensures Base64UrlDecode([Letter(p, true), Letter(q, true)]) == Ok([Upper(p, q)])
  {
    var text := [Letter(p, true), Letter(q, true)];
    LetterFacts(p, true);
    LetterFacts(q, true);
    assert AllLetters(text, true);
    NothingToTrim(text);
    DecodedText(text);
    assert Values(text, true) == [p, q];
    ShortGroups(p, q, 0);
  }

  /** Texts are not unique: sixteen texts of two letters stand for the same byte. */
  lemma TextsAreNotUnique(p: Sextet, q: Sextet, r: Sextet)
    requires q / 16 == r / 16
    ensures var x, y := [Letter(p, true), Letter(q, true)], [Letter(p, true), Letter(r, true)];
            Base64UrlDecode(x).Ok? && Base64UrlDecode(x) == Base64UrlDecode(y)
  {
    PairOfLetters(p, q);
    PairOfLetters(p, r);
    assert Upper(p, q) == Upper(p, r);
  }

  // ----- rendezvous windows -----

  const MAX_SAFE_INTEGER: int := 0x1F_FFFF_FFFF_FFFF
  const DEFAULT_INTERVAL: int := 300
  const DEFAULT_OFFSETS: seq<int> := [-1, 0, 1]

  predicate SafeInteger(n: int) {
    -MAX_SAFE_INTEGER <= n <= MAX_SAFE_INTEGER
  }

  /** The distinct elements, each where it first occurs. */
  function Distinct(s: seq<int>): seq<int> {
    if s == [] then []
    else
      var front := Distinct(s[..|s| - 1]);
      if s[|s| - 1] in front then front else front + [s[|s| - 1]]
  }

  lemma Distributes(a: int, b: int, d: nat)
    ensures (a + b) * d == a * d + b * d
  {
  }

  lemma NotNegative(e: nat, d: nat)
    ensures e * d >= 0
  {
  }

  lemma MultiplesApart(p: int, q: int, d: nat)
    ensures p < q ==> p * d + d <= q * d
  {
    if p < q {
      var e: nat := q - p - 1;
      NotNegative(e, d);
      Distributes(p + 1, e, d);
      Distributes(p, 1, d);
    }
  }

  lemma QuotientBounds(y: nat, d: nat)
    requires d > 0
    ensures 0 <= y / d && y / d * d <= y < y / d * d + d
  {
    assert y == y / d * d + y % d;
    MultiplesApart(y / d, 0, d);
  }

  /** The number of whole intervals since the start of time. */
  function BaseEpoch(nowMs: nat, interval: nat): (epoch: nat)
    requires interval > 0
    ensures epoch * (1000 * interval) <= nowMs < epoch * (1000 * interval) + 1000 * interval
  {
    QuotientBounds(nowMs, 1000 * interval);
    nowMs / (1000 * interval)
  }

  /** The epochs of the windows at a time in milliseconds; each names one rendezvous point. */
  function Windows(nowMs: int, interval: int, offsets: seq<int>): Result<seq<nat>, string> {
    if !SafeInteger(interval) then Err("Rendezvous interval must be a safe integer")
    else if interval < 30 then Err("Rendezvous interval must be at least 30 seconds")
    else if nowMs < 0 then Err("Rendezvous time must be a positive millisecond timestamp")
    else if |offsets| == 0 || |offsets| > 8 then Err("Rendezvous offsets must contain 1..8 entries")
    else if exists i :: 0 <= i < |offsets| && !SafeInteger(offsets[i]) then Err("Rendezvous offset must be a safe integer")
    else Epochs(BaseEpoch(nowMs, interval), Distinct(offsets))
  }

  function Epochs(base: nat, offsets: seq<int>): Result<seq<nat>, string> {
    if offsets == [] then Ok([])
    else
      match Epochs(base, offsets[..|offsets| - 1])
      case Err(e) => Err(e)
      case Ok(front) =>
        var epoch := base + offsets[|offsets| - 1];
        if epoch < 0 then Err("Rendezvous epoch must not be negative") else Ok(front + [epoch])
  }

  lemma EpochsSnoc(base: nat, front: seq<int>, last: int)
    ensures Epochs(base, front).Err? ==> Epochs(base, front + [last]).Err?
    ensures base + last < 0 ==> Epochs(base, front + [last]).Err?
    ensures Epochs(base, front).Ok? && base + last >= 0 ==>
              Epochs(base, front + [last]) == Ok(Epochs(base, front).value + [base + last])
  {
    var offsets := front + [last];
    assert offsets[..|offsets| - 1] == front && offsets[|offsets| - 1] == last;
  }

  lemma FirstEpochs(base: nat)
    ensures base == 0 ==> Epochs(base, [-1, 0]).Err?
    ensures base > 0 ==> Epochs(base, [-1, 0]) == Ok([base - 1, base])
  {
    EpochsSnoc(base, [], -1);
    EpochsSnoc(base, [-1], 0);
    assert [] + [-1] == [-1] && [-1] + [0] == [-1, 0];
    if base > 0 {
      assert Epochs(base, [-1]).value == [base - 1];
      assert Epochs(base, [-1, 0]).value == [base - 1, base];
    }
  }

  lemma DefaultEpochs(base: nat)
    ensures base == 0 ==> Epochs(base, DEFAULT_OFFSETS).Err?
    ensures base > 0 ==> Epochs(base, DEFAULT_OFFSETS) == Ok([base - 1, base, base + 1])
  {
    FirstEpochs(base);
    EpochsSnoc(base, [-1, 0], 1);
    assert [-1, 0] + [1] == DEFAULT_OFFSETS;
    if base > 0 {
      assert Epochs(base, DEFAULT_OFFSETS).value == [base - 1, base, base + 1];
    }
  }

  lemma DefaultDistinct()
    ensures Distinct(DEFAULT_OFFSETS) == DEFAULT_OFFSETS
  {
    var o := DEFAULT_OFFSETS;
    assert o[..2] == [-1, 0] && [-1, 0][..1] == [-1] && [-1][..0] == [];
    assert Distinct([-1]) == [-1];
    assert Distinct([-1, 0]) == [-1, 0];
  }

  lemma DefaultWindows(nowMs: int, interval: int)
    requires 30 <= interval <= MAX_SAFE_INTEGER && nowMs >= 0
    ensures var base := BaseEpoch(nowMs, interval);
            && (base == 0 ==> Windows(nowMs, interval, DEFAULT_OFFSETS).Err?)
            && (base > 0 ==> Windows(nowMs, interval, DEFAULT_OFFSETS) == Ok([base - 1, base, base + 1]))
  {
    DefaultDistinct();
    DefaultEpochs(BaseEpoch(nowMs, interval));
  }

  ghost predicate Meet(a: seq<nat>, b: seq<nat>) {
    exists epoch :: epoch in a && epoch in b
  }

  lemma ThreeMeet(a: nat, b: nat)
    requires a > 0 && b > 0
    ensures Meet([a - 1, a, a + 1], [b - 1, b, b + 1]) <==> -2 <= a - b <= 2
  {
    var u, v := [a - 1, a, a + 1], [b - 1, b, b + 1];
    if -2 <= a - b <= 2 {
      var common := if a < b then b - 1 else a - 1;
      assert common in u && common in v;
    } else {
      forall epoch: nat
        ensures !(epoch in u && epoch in v)
      {
        assert epoch in u ==> a - 1 <= epoch <= a + 1;
        assert epoch in v ==> b - 1 <= epoch <= b + 1;
      }
    }
  }

  /** Two parties share a window exactly when their epochs are at most two apart. */
  lemma WindowsMeet(listenerMs: int, clientMs: int, interval: int)
    requires 30 <= interval <= MAX_SAFE_INTEGER && listenerMs >= 0 && clientMs >= 0
    requires Windows(listenerMs, interval, DEFAULT_OFFSETS).Ok? && Windows(clientMs, interval, DEFAULT_OFFSETS).Ok?
    ensures Meet(Windows(listenerMs, interval, DEFAULT_OFFSETS).value, Windows(clientMs, interval, DEFAULT_OFFSETS).value) <==>
            -2 <= BaseEpoch(listenerMs, interval) - BaseEpoch(clientMs, interval) <= 2
  {
    DefaultWindows(listenerMs, interval);
    DefaultWindows(clientMs, interval);
    ThreeMeet(BaseEpoch(listenerMs, interval), BaseEpoch(clientMs, interval));
  }

  lemma EpochsClose(x: nat, y: nat, interval: nat)
    requires interval > 0 && x <= y <= x + 2000 * interval
    ensures BaseEpoch(x, interval) <= BaseEpoch(y, interval) <= BaseEpoch(x, interval) + 2
  {
    var p, q, d := BaseEpoch(x, interval), BaseEpoch(y, interval), 1000 * interval;
    MultiplesApart(q, p, d);
    MultiplesApart(p + 2, q, d);
    assert (p + 2) * d == p * d + 2 * d;
  }

  /** Clocks that differ by at most two intervals always share a window. */
  lemma CloseClocksMeet(listenerMs: int, clientMs: int, interval: int)
    requires 30 <= interval <= MAX_SAFE_INTEGER && listenerMs >= 0 && clientMs >= 0
    requires Windows(listenerMs, interval, DEFAULT_OFFSETS).Ok? && Windows(clientMs, interval, DEFAULT_OFFSETS).Ok?
    requires -2000 * interval <= listenerMs - clientMs <= 2000 * interval
    ensures Meet(Windows(listenerMs, interval, DEFAULT_OFFSETS).value, Windows(clientMs, interval, DEFAULT_OFFSETS).value)
  {
    if listenerMs <= clientMs {
      EpochsClose(listenerMs, clientMs, interval);
    } else {
      EpochsClose(clientMs, listenerMs, interval);
    }
    WindowsMeet(listenerMs, clientMs, interval);
  }

  /**
   * A listener republishes every 300 seconds and may take 60 to do it. A record of that age is
   * still found by a client whose clock is up to 240 seconds off.
   */
  lemma PublishedRecordIsFound(publishedMs: int, ageMs: int, skewMs: int)
    requires publishedMs >= 0 && 0 <= ageMs <= 360_000 && -240_000 <= skewMs <= 240_000
    requires publishedMs + ageMs + skewMs >= 0
    requires Windows(publishedMs, DEFAULT_INTERVAL, DEFAULT_OFFSETS).Ok?
    requires Windows(publishedMs + ageMs + skewMs, DEFAULT_INTERVAL, DEFAULT_OFFSETS).Ok?
    ensures Meet(Windows(publishedMs, DEFAULT_INTERVAL, DEFAULT_OFFSETS).value,
                 Windows(publishedMs + ageMs + skewMs, DEFAULT_INTERVAL, DEFAULT_OFFSETS).value)
  {
    CloseClocksMeet(publishedMs, publishedMs + ageMs + skewMs, DEFAULT_INTERVAL);
  }
}
