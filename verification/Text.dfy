/** Text as bytes: ASCII literals, decimal numbers, and fields ended by a separator. */
module Text {
  import opened Bytes

  predicate IsAscii(s: string) {
    forall i :: 0 <= i < |s| ==> (s[i] as int) < 0x80
  }

  function Ascii(s: string): (b: seq<byte>)
    requires IsAscii(s)
    ensures |b| == |s|
  {
    seq(|s|, i requires 0 <= i < |s| => s[i] as int)
  }

  function Digit(d: nat): byte
    requires d < 10
  {
    0x30 + d
  }

  /** A number as JavaScript prints it. */
  function Decimal(n: nat): (b: seq<byte>)
    ensures |b| >= 1
  {
    if n < 10 then [Digit(n)] else Decimal(n / 10) + [Digit(n % 10)]
  }

  /** The number that decimal digits stand for. */
  function ReadDecimal(b: seq<int>): int {
    if b == [] then 0 else 10 * ReadDecimal(b[..|b| - 1]) + b[|b| - 1] - 0x30
  }

  lemma {:induction false} DecimalReadBack(n: nat)
    ensures ReadDecimal(Decimal(n)) == n
    ensures forall i :: 0 <= i < |Decimal(n)| ==> 0x30 <= Decimal(n)[i] <= 0x39
  {
    var b := Decimal(n);
    if n < 10 {
      assert b[..|b| - 1] == [];
    } else {
      DecimalReadBack(n / 10);
      assert b[..|b| - 1] == Decimal(n / 10);
    }
  }

  lemma DecimalInjective(n: nat, m: nat)
    requires Decimal(n) == Decimal(m)
    ensures n == m
  {
    DecimalReadBack(n);
    DecimalReadBack(m);
  }

  /** The characters that trimming, and reading a number, skip. */
  predicate IsSpace(u: int) {
    || 9 <= u <= 13 || u == 0x20 || u == 0xa0 || u == 0x1680 || 0x2000 <= u <= 0x200a
    || u == 0x2028 || u == 0x2029 || u == 0x202f || u == 0x205f || u == 0x3000 || u == 0xfeff
  }

  predicate FreeOf(separator: byte, field: seq<byte>) {
    separator !in field
  }

  /** Every field followed by the separator. */
  function Terminated(separator: byte, fields: seq<seq<byte>>): seq<byte> {
    if fields == [] then [] else fields[0] + [separator] + Terminated(separator, fields[1..])
  }

  /** The first field ends where the separator first occurs. */
  lemma FirstField(separator: byte, f: seq<byte>, x: seq<byte>, g: seq<byte>, y: seq<byte>)
    requires FreeOf(separator, f) && FreeOf(separator, g)
    requires f + [separator] + x == g + [separator] + y
    ensures f == g && x == y
  {
    var s := f + [separator] + x;
    assert s[|f|] == separator && s[|g|] == separator;
    assert forall i :: 0 <= i < |f| ==> s[i] == f[i];
    assert forall i :: 0 <= i < |g| ==> s[i] == g[i];
    assert |f| == |g|;
    assert f == s[..|f|] && g == s[..|g|];
    assert x == s[|f| + 1..] && y == s[|g| + 1..];
  }

  /** Fields without the separator can be told apart, and so can what follows them. */
  lemma {:induction false} TerminatedInjective(separator: byte, f: seq<seq<byte>>, x: seq<byte>, g: seq<seq<byte>>, y: seq<byte>)
    requires |f| == |g|
    requires forall i :: 0 <= i < |f| ==> FreeOf(separator, f[i]) && FreeOf(separator, g[i])
    requires Terminated(separator, f) + x == Terminated(separator, g) + y
    ensures f == g && x == y
    decreases |f|
  {
    if f != [] {
      var fx, gy := Terminated(separator, f[1..]) + x, Terminated(separator, g[1..]) + y;
      assert Terminated(separator, f) + x == f[0] + [separator] + fx;
      assert Terminated(separator, g) + y == g[0] + [separator] + gy;
      FirstField(separator, f[0], fx, g[0], gy);
      TerminatedInjective(separator, f[1..], x, g[1..], y);
      assert f == [f[0]] + f[1..] && g == [g[0]] + g[1..];
    } else {
      assert x == Terminated(separator, f) + x && y == Terminated(separator, g) + y;
    }
  }
}
