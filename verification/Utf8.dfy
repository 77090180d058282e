/**
 * UTF-8 as TextEncoder writes it and TextDecoder reads it: malformed sequences are replaced
 * and a leading byte order mark is removed (the encoding standard of the WHATWG, section 8.1).
 */
module Utf8 {
  import opened Bytes

  /** A Unicode scalar value. */
  type Scalar = n: int | 0 <= n < 0xD800 || 0xE000 <= n < 0x11_0000

  type Text = seq<Scalar>

  const REPLACEMENT: Scalar := 0xFFFD
  const BYTE_ORDER_MARK: Scalar := 0xFEFF

  // ----- writing -----

  function EncodeScalar(c: Scalar): (b: Chunk)
    ensures 1 <= |b| <= 4
  {
    if c < 0x80 then [c]
    else if c < 0x800 then [0xC0 + c / 0x40, 0x80 + c % 0x40]
    else if c < 0x1_0000 then [0xE0 + c / 0x1000, 0x80 + c / 0x40 % 0x40, 0x80 + c % 0x40]
    else [0xF0 + c / 0x4_0000, 0x80 + c / 0x1000 % 0x40, 0x80 + c / 0x40 % 0x40, 0x80 + c % 0x40]
  }

  function Encode(t: Text): Chunk {
    if t == [] then [] else EncodeScalar(t[0]) + Encode(t[1..])
  }

  // ----- reading -----

  /** What the decoder makes of the front of its input, and how much it takes for that. */
  datatype Front = Front(scalar: Scalar, used: nat, whole: bool)

  predicate Continues(b: Chunk, i: nat) {
    i < |b| && 0x80 <= b[i] <= 0xBF
  }

  /** The second byte of a sequence; some leads allow only part of the range. */
  predicate Second(b: Chunk) {
    && |b| >= 2
    && (if b[0] == 0xE0 then 0xA0 else if b[0] == 0xF0 then 0x90 else 0x80) <= b[1]
    && b[1] <= (if b[0] == 0xED then 0x9F else if b[0] == 0xF4 then 0x8F else 0xBF)
  }

  function Low(b: byte): int {
    b % 0x40
  }

  /** A sequence that breaks off is replaced as far as it went, and the byte that broke it is looked at again. */
  function First(b: Chunk): (front: Front)
    requires b != []
    ensures 1 <= front.used <= |b|
  {
    if b[0] < 0x80 then Front(b[0], 1, true)
    else if b[0] < 0xC2 || b[0] > 0xF4 || !Second(b) then Front(REPLACEMENT, 1, false)
    else if b[0] < 0xE0 then Front(Pair(b[0], b[1]), 2, true)
    else if !Continues(b, 2) then Front(REPLACEMENT, 2, false)
    else if b[0] < 0xF0 then Front(Triple(b[0], b[1], b[2]), 3, true)
    else if !Continues(b, 3) then Front(REPLACEMENT, 3, false)
    else Front(Quadruple(b[0], b[1], b[2], b[3]), 4, true)
  }

  function Pair(p: byte, q: byte): Scalar
    requires 0xC2 <= p < 0xE0
  {
    (p - 0xC0) * 0x40 + Low(q)
  }

  function Triple(p: byte, q: byte, r: byte): Scalar
    requires 0xE0 <= p < 0xF0 && 0x80 <= q <= 0xBF && (p == 0xED ==> q <= 0x9F)
  {
    (p - 0xE0) * 0x1000 + Low(q) * 0x40 + Low(r)
  }

  function Quadruple(p: byte, q: byte, r: byte, s: byte): Scalar
    requires 0xF0 <= p <= 0xF4 && 0x80 <= q <= 0xBF && (p == 0xF0 ==> q >= 0x90) && (p == 0xF4 ==> q <= 0x8F)
  {
    (p - 0xF0) * 0x4_0000 + Low(q) * 0x1000 + Low(r) * 0x40 + Low(s)
  }

  function Decode(b: Chunk): Text
    decreases |b|
  {
    if b == [] then [] else [First(b).scalar] + Decode(b[First(b).used..])
  }

  /** TextDecoder with its default options. */
  function DecodeText(b: Chunk): Text {
    var t := Decode(b);
    if t != [] && t[0] == BYTE_ORDER_MARK then t[1..] else t
  }

  // ----- what is written is read -----

  lemma PairRead(c: Scalar)
    requires 0x80 <= c < 0x800
    ensures 0xC2 <= 0xC0 + c / 0x40 < 0xE0 && Pair(0xC0 + c / 0x40, 0x80 + c % 0x40) == c
  {
  }

  lemma TripleRead(c: Scalar)
    requires 0x800 <= c < 0x1_0000
    ensures 0xE0 <= 0xE0 + c / 0x1000 < 0xF0
    ensures c / 0x1000 == 0 ==> c / 0x40 % 0x40 >= 0x20
    ensures c / 0x1000 == 0xD ==> c / 0x40 % 0x40 <= 0x1F
    ensures Triple(0xE0 + c / 0x1000, 0x80 + c / 0x40 % 0x40, 0x80 + c % 0x40) == c
  {
    assert c / 0x40 == c / 0x1000 * 0x40 + c / 0x40 % 0x40;
  }

  lemma QuadrupleRead(c: Scalar)
    requires 0x1_0000 <= c
    ensures 0xF0 <= 0xF0 + c / 0x4_0000 <= 0xF4
    ensures c / 0x4_0000 == 0 ==> c / 0x1000 % 0x40 >= 0x10
    ensures c / 0x4_0000 == 4 ==> c / 0x1000 % 0x40 <= 0x0F
    ensures Quadruple(0xF0 + c / 0x4_0000, 0x80 + c / 0x1000 % 0x40, 0x80 + c / 0x40 % 0x40, 0x80 + c % 0x40) == c
  {
    assert c / 0x40 == c / 0x1000 * 0x40 + c / 0x40 % 0x40;
    assert c / 0x1000 == c / 0x4_0000 * 0x40 + c / 0x1000 % 0x40;
  }

  lemma FirstOfEncoded(c: Scalar, rest: Chunk)
    ensures First(EncodeScalar(c) + rest) == Front(c, |EncodeScalar(c)|, true)
  {
    if c < 0x80 {
    } else if c < 0x800 {
      PairRead(c);
    } else if c < 0x1_0000 {
      TripleRead(c);
    } else {
      QuadrupleRead(c);
    }
  }

  /** Every text is read back from its encoding. */
  lemma {:induction false} DecodeEncode(t: Text)
    ensures Decode(Encode(t)) == t
  {
    if t != [] {
      FirstOfEncoded(t[0], Encode(t[1..]));
      assert Encode(t)[|EncodeScalar(t[0])|..] == Encode(t[1..]);
      DecodeEncode(t[1..]);
    }
  }

  // ----- exactly when bytes survive -----

  ghost predicate WellFormed(b: Chunk) {
    exists t: Text :: Encode(t) == b
  }

  predicate Marked(b: Chunk) {
    |b| >= 3 && b[0] == 0xEF && b[1] == 0xBB && b[2] == 0xBF
  }

  lemma MarkIsWritten()
    ensures EncodeScalar(BYTE_ORDER_MARK) == [0xEF, 0xBB, 0xBF]
  {
  }

  lemma MarkIsRead(b: Chunk)
    requires Marked(b)
    ensures Decode(b) != [] && Decode(b)[0] == BYTE_ORDER_MARK
  {
    MarkIsWritten();
    FirstOfEncoded(BYTE_ORDER_MARK, b[3..]);
    assert b == [0xEF, 0xBB, 0xBF] + b[3..];
  }

  lemma MarkOfText(t: Text)
    ensures Marked(Encode(t)) <==> t != [] && t[0] == BYTE_ORDER_MARK
  {
    MarkIsWritten();
    DecodeEncode(t);
    if Marked(Encode(t)) {
      MarkIsRead(Encode(t));
    }
  }

  /**
   * Bytes that are read and written again are unchanged exactly when they are well-formed and
   * do not begin with the byte order mark.
   */
  lemma ComesBack(b: Chunk)
    ensures Encode(DecodeText(b)) == b <==> WellFormed(b) && !Marked(b)
  {
    if Encode(DecodeText(b)) == b {
      DecodeEncode(DecodeText(b));
      assert Decode(b) == DecodeText(b);
      if Marked(b) {
        MarkIsRead(b);
      }
    }
    if WellFormed(b) && !Marked(b) {
      var t: Text :| Encode(t) == b;
      DecodeEncode(t);
      MarkOfText(t);
    }
  }

  /** A text survives being written and read exactly when it does not begin with the byte order mark. */
  lemma TextComesBack(t: Text)
    ensures DecodeText(Encode(t)) == t <==> !(t != [] && t[0] == BYTE_ORDER_MARK)
  {
    DecodeEncode(t);
  }

  /** Well-formed names without the mark are told apart by their texts. */
  lemma TextInjective(b: Chunk, c: Chunk)
    requires WellFormed(b) && !Marked(b) && WellFormed(c) && !Marked(c)
    ensures DecodeText(b) == DecodeText(c) <==> b == c
  {
    ComesBack(b);
    ComesBack(c);
  }

  /** Two names that no text tells apart, and one that loses its front. */
  lemma NamesThatDoNotComeBack()
    ensures DecodeText([0xFF]) == DecodeText([0xFE]) == [REPLACEMENT]
    ensures DecodeText([0xEF, 0xBB, 0xBF, 0x61]) == [0x61]
  {
    assert Decode([]) == [];
    assert [0xFF][1..] == [] && [0xFE][1..] == [];
    var b := [0xEF, 0xBB, 0xBF, 0x61];
    MarkIsWritten();
    FirstOfEncoded(BYTE_ORDER_MARK, [0x61]);
    assert b == [0xEF, 0xBB, 0xBF] + [0x61];
    assert b[3..] == [0x61] && [0x61][1..] == [];
  }
}
