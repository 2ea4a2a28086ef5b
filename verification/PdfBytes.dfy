/** The bytes of text: UTF-8, decimal numbers, and where pieces of a concatenation end up. */
module PdfBytes {
  newtype byte = b: int | 0 <= b < 256

  /** UTF-8 of one character. */
  function Utf8Char(c: char): (bytes: seq<byte>)
    ensures 1 <= |bytes| <= 4
  {
    var n := c as int;
    if n < 0x80 then [n as byte]
    else if n < 0x800 then [(0xC0 + n / 0x40) as byte, (0x80 + n % 0x40) as byte]
    else if n < 0x1_0000 then
      [(0xE0 + n / 0x1000) as byte, (0x80 + n / 0x40 % 0x40) as byte, (0x80 + n % 0x40) as byte]
    else
      [(0xF0 + n / 0x4_0000) as byte, (0x80 + n / 0x1000 % 0x40) as byte,
       (0x80 + n / 0x40 % 0x40) as byte, (0x80 + n % 0x40) as byte]
  }

  function Utf8(s: string): seq<byte> {
    if s == [] then [] else Utf8Char(s[0]) + Utf8(s[1..])
  }

  function ByteLength(s: string): nat {
    |Utf8(s)|
  }

  lemma {:induction false} Utf8Append(a: string, b: string)
    ensures Utf8(a + b) == Utf8(a) + Utf8(b)
  {
    if a == [] {
      assert a + b == b;
    } else {
      assert (a + b)[1..] == a[1..] + b;
      Utf8Append(a[1..], b);
    }
  }

  /** A piece of bytes stands at an offset. */
  predicate Holds(bytes: seq<byte>, offset: nat, piece: seq<byte>) {
    offset + |piece| <= |bytes| && forall k :: 0 <= k < |piece| ==> bytes[offset + k] == piece[k]
  }

  lemma HoldsIn(bytes: seq<byte>, offset: nat, a: seq<byte>, b: seq<byte>)
    requires Holds(bytes, offset, a + b)
    ensures Holds(bytes, offset, a) && Holds(bytes, offset + |a|, b)
  {
    forall k | 0 <= k < |a| ensures bytes[offset + k] == a[k] {
      assert (a + b)[k] == a[k];
    }
    forall k | 0 <= k < |b| ensures bytes[offset + |a| + k] == b[k] {
      assert (a + b)[|a| + k] == b[k];
    }
  }

  lemma HoldsParts(bytes: seq<byte>, offset: nat, a: seq<byte>, b: seq<byte>, c: seq<byte>)
    requires Holds(bytes, offset, a + b + c)
    ensures Holds(bytes, offset + |a|, b) && Holds(bytes, offset + |a| + |b|, c)
  {
    HoldsIn(bytes, offset, a + b, c);
    HoldsIn(bytes, offset, a, b);
  }

  predicate Ascii(s: string) {
    forall k :: 0 <= k < |s| ==> s[k] as int < 0x80
  }

  lemma {:induction false} AsciiBytes(s: string)
    requires Ascii(s)
    ensures |Utf8(s)| == |s|
    ensures forall k :: 0 <= k < |s| ==> Utf8(s)[k] as int == s[k] as int
  {
    if s != [] {
      AsciiBytes(s[1..]);
    }
  }

  // ---- Decimal numbers ------------------------------------------------------

  predicate Digit(b: byte) {
    48 <= b <= 57
  }

  function DigitChar(d: nat): (c: char)
    requires d < 10
    ensures c as int == 48 + d
  {
    (48 + d) as char
  }

  /** A number in decimal. */
  function Decimal(n: nat): (s: string)
    ensures |s| >= 1 && Ascii(s)
    ensures forall k :: 0 <= k < |s| ==> 48 <= s[k] as int <= 57
  {
    if n < 10 then [DigitChar(n)] else Decimal(n / 10) + [DigitChar(n % 10)]
  }

  function Zeros(k: nat): (s: string)
    ensures |s| == k && forall i :: 0 <= i < k ==> s[i] == '0'
  {
    if k == 0 then [] else Zeros(k - 1) + ['0']
  }

  /** Padded to `width` with zeros on the left, as it is when it is longer already. */
  function PadStart(s: string, width: nat): string {
    if |s| >= width then s else Zeros(width - |s|) + s
  }

  /** What a reader makes of a run of digits. */
  function ParseDecimal(bytes: seq<byte>): nat
    requires forall k :: 0 <= k < |bytes| ==> Digit(bytes[k])
  {
    if bytes == [] then 0
    else
      assert Digit(bytes[|bytes| - 1]);
      ParseDecimal(bytes[..|bytes| - 1]) * 10 + (bytes[|bytes| - 1] - 48) as int
  }

  predicate ParsesTo(bytes: seq<byte>, n: nat) {
    (forall k :: 0 <= k < |bytes| ==> Digit(bytes[k])) && ParseDecimal(bytes) == n
  }

  lemma {:induction false} DecimalParses(n: nat)
    ensures ParsesTo(Utf8(Decimal(n)), n)
  {
    var s := Decimal(n);
    AsciiBytes(s);
    forall k | 0 <= k < |Utf8(s)| ensures Digit(Utf8(s)[k]) {
      assert 48 <= s[k] as int <= 57;
    }
    if n >= 10 {
      DecimalParses(n / 10);
      Utf8Append(Decimal(n / 10), [DigitChar(n % 10)]);
      assert Utf8([DigitChar(n % 10)]) == [(48 + n % 10) as byte];
      assert Utf8(s)[..|Utf8(s)| - 1] == Utf8(Decimal(n / 10));
    } else {
      assert Utf8(s) == [(48 + n) as byte];
    }
  }

  lemma {:induction false} ZerosParse(k: nat, bytes: seq<byte>, n: nat)
    requires ParsesTo(bytes, n)
    ensures ParsesTo(Utf8(Zeros(k)) + bytes, n)
    decreases |bytes|
  {
    var zeros := Utf8(Zeros(k));
    if bytes == [] {
      assert zeros + bytes == zeros;
      ZerosAlone(k);
    } else {
      var m := |bytes| - 1;
      ZerosParse(k, bytes[..m], ParseDecimal(bytes[..m]));
      assert (zeros + bytes)[..|zeros| + m] == zeros + bytes[..m];
    }
  }

  lemma {:induction false} ZerosAlone(k: nat)
    ensures ParsesTo(Utf8(Zeros(k)), 0)
  {
    if k > 0 {
      ZerosAlone(k - 1);
      Utf8Append(Zeros(k - 1), ['0']);
      assert Utf8(['0']) == [48];
      assert Utf8(Zeros(k))[..|Utf8(Zeros(k))| - 1] == Utf8(Zeros(k - 1));
    }
  }

  function Power(e: nat): nat {
    if e == 0 then 1 else 10 * Power(e - 1)
  }

  /** A number has at most `e` digits exactly when it is below ten to the `e`. */
  lemma {:induction false} DecimalWidth(n: nat, e: nat)
    requires e >= 1
    ensures |Decimal(n)| <= e <==> n < Power(e)
  {
    if n >= 10 && e > 1 {
      DecimalWidth(n / 10, e - 1);
    } else if e > 1 {
      PowerGrows(e);
    }
  }

  lemma {:induction false} PowerGrows(e: nat)
    requires e >= 1
    ensures Power(e) >= 10
  {
    if e > 1 {
      PowerGrows(e - 1);
    }
  }

  /** A padded number parses back, whatever its size, and has the width asked for exactly when it fits. */
  lemma PaddedParses(n: nat, width: nat)
    requires width >= 1
    ensures ParsesTo(Utf8(PadStart(Decimal(n), width)), n)
    ensures Ascii(PadStart(Decimal(n), width))
    ensures |PadStart(Decimal(n), width)| == width <==> n < Power(width)
  {
    DecimalParses(n);
    DecimalWidth(n, width);
    if |Decimal(n)| < width {
      Utf8Append(Zeros(width - |Decimal(n)|), Decimal(n));
      ZerosParse(width - |Decimal(n)|, Utf8(Decimal(n)), n);
    }
  }
}
