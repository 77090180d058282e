/**
 * Controls as text: what a stream hands to sendControl, how it travels in a frame, and what
 * the other stream makes of it, or of any other text.
 */
module ControlText {
  import opened Bytes
  import opened StreamModel
  import opened Text
  import U = Utf8
  import NativePeer

  const MAX_SAFE_INTEGER: int := 0x1F_FFFF_FFFF_FFFF
  const MINUS: U.Scalar := 0x2D
  const PLUS: U.Scalar := 0x2B

  function Word(s: string): U.Text
    requires IsAscii(s)
  {
    Ascii(s)
  }

  const ACK: string := "ack:"

  function Print(control: Control): U.Text
    requires !control.Unknown? && (control.Ack? ==> control.count >= 0)
  {
    match control
    case Eof => Word("eof")
    case Abort => Word("abort")
    case Flow => Word("flow:1")
    case Resume => Word("resume")
    case Ack(n) => Word(ACK) + Decimal(n)
    case Ping => Word("ping")
    case Pong => Word("pong")
  }

  // ----- reading -----

  predicate IsDigit(c: int) {
    0x30 <= c <= 0x39
  }

  function SkipSpace(t: U.Text): U.Text {
    if t != [] && IsSpace(t[0]) then SkipSpace(t[1..]) else t
  }

  /** The digits in front. */
  function Digits(t: U.Text): U.Text {
    if t != [] && IsDigit(t[0]) then [t[0]] + Digits(t[1..]) else []
  }

  /** Number.parseInt with radix 10: spaces, a sign, as many digits as there are, and whatever follows. */
  function ParseInt(t: U.Text): Option<int> {
    var u := SkipSpace(t);
    var signed := u != [] && (u[0] == MINUS || u[0] == PLUS);
    var digits := Digits(if signed then u[1..] else u);
    if digits == [] then None
    else Some(if signed && u[0] == MINUS then -ReadDecimal(digits) else ReadDecimal(digits))
  }

  function Parse(text: U.Text): Control {
    if text == Word("eof") then Eof
    else if text == Word("abort") then Abort
    else if text == Word("flow:1") then Flow
    else if text == Word("resume") then Resume
    else if Word(ACK) <= text then
      match ParseInt(text[|ACK|..])
      case Some(n) => if -MAX_SAFE_INTEGER <= n <= MAX_SAFE_INTEGER then Ack(n) else Unknown
      case None => Unknown
    else if text == Word("ping") then Ping
    else if text == Word("pong") then Pong
    else Unknown
  }

  // ----- what is printed is read -----

  lemma {:induction false} DigitsInFront(digits: U.Text, more: U.Text)
    requires forall i :: 0 <= i < |digits| ==> IsDigit(digits[i])
    requires more == [] || !IsDigit(more[0])
    ensures Digits(digits + more) == digits
  {
    if digits == [] {
      assert digits + more == more;
    } else {
      DigitsInFront(digits[1..], more);
      assert (digits + more)[1..] == digits[1..] + more;
    }
  }

  /** Digits are read as their number, whatever follows that is no digit. */
  lemma NumberIsRead(n: nat, more: U.Text)
    requires more == [] || !IsDigit(more[0])
    ensures ParseInt(Decimal(n) + more) == Some(n)
  {
    var t: U.Text := Decimal(n) + more;
    DecimalReadBack(n);
    assert IsDigit(t[0]) && !IsSpace(t[0]) && t[0] != MINUS && t[0] != PLUS;
    assert SkipSpace(t) == t;
    DigitsInFront(Decimal(n), more);
  }

  /** A text that begins like an acknowledgement is none of the other words. */
  lemma AckIsNoOther(text: U.Text)
    requires Word(ACK) <= text
    ensures text != Word("eof") && text != Word("abort") && text != Word("flow:1") && text != Word("resume")
  {
    assert text[0] == Word(ACK)[0] == 'a' as int && text[1] == Word(ACK)[1] == 'c' as int;
    assert Word("eof")[0] == 'e' as int && Word("abort")[1] == 'b' as int;
    assert Word("flow:1")[0] == 'f' as int && Word("resume")[0] == 'r' as int;
  }

  /** An acknowledgement is read even with something behind its number, and of a number too large nothing is. */
  lemma AckIsRead(n: nat, more: U.Text)
    requires more == [] || !IsDigit(more[0])
    ensures Parse(Word(ACK) + Decimal(n) + more) == if n <= MAX_SAFE_INTEGER then Ack(n) else Unknown
  {
    var text := Word(ACK) + Decimal(n) + more;
    assert text[..|ACK|] == Word(ACK) && text[|ACK|..] == Decimal(n) + more;
    AckIsNoOther(text);
    NumberIsRead(n, more);
  }

  lemma WordsDiffer()
    ensures |Word("eof")| == 3 && |Word("abort")| == 5 && |Word("flow:1")| == |Word("resume")| == 6
    ensures |Word("ping")| == |Word("pong")| == 4 && |Word(ACK)| == 4
    ensures Word("flow:1") != Word("resume") && Word("ping") != Word("pong")
    ensures !(Word(ACK) <= Word("ping")) && !(Word(ACK) <= Word("pong"))
  {
    assert Word("flow:1")[0] == 'f' as int && Word("resume")[0] == 'r' as int;
    assert Word("ping")[1] == 'i' as int && Word("pong")[1] == 'o' as int && Word(ACK)[1] == 'c' as int;
  }

  /** Whatever a stream says is what the other hears. */
  lemma ParsePrint(control: Control)
    requires !control.Unknown? && (control.Ack? ==> 0 <= control.count <= MAX_SAFE_INTEGER)
    ensures Parse(Print(control)) == control
  {
    WordsDiffer();
    if control.Ack? {
      AckIsRead(control.count, []);
      assert Word(ACK) + Decimal(control.count) + [] == Print(control);
    }
  }

  lemma PrintedIsAscii(control: Control)
    requires !control.Unknown? && (control.Ack? ==> control.count >= 0)
    ensures forall i :: 0 <= i < |Print(control)| ==> Print(control)[i] < 0x80
  {
    if control.Ack? {
      DecimalReadBack(control.count);
    }
  }

  /** In a frame, as UTF-8, and out of it again. */
  lemma ControlTravels(control: Control, kind: byte)
    requires !control.Unknown? && (control.Ack? ==> 0 <= control.count <= MAX_SAFE_INTEGER)
    ensures var arrived := NativePeer.DecodeFrame(NativePeer.EncodeFrame(kind, U.Encode(Print(control))));
            arrived.Ok? && arrived.value.0 == kind && Parse(U.DecodeText(arrived.value.1)) == control
  {
    var text := Print(control);
    PrintedIsAscii(control);
    NativePeer.FrameExact(NativePeer.EncodeFrame(kind, U.Encode(text)), kind, U.Encode(text));
    U.TextComesBack(text);
    ParsePrint(control);
  }
}
