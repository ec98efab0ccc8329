/** The application/x-www-form-urlencoded format of the WHATWG URL Standard
    (section 5): the serializer behind `URLSearchParams.toString()` and the
    parser behind `new URLSearchParams(string)`, together with the UTF-8 and
    percent-encoding steps they rely on. The query strings the frontend
    writes are read back through these two, so their round trip is what the
    cross-component lemmas stand on. */
module FormUrlEncoded {

  type byte = b: int | 0 <= b < 256

  const Space: byte := 0x20
  const Percent: byte := 0x25
  const Ampersand: byte := 0x26
  const Plus: byte := 0x2B
  const EqualsSign: byte := 0x3D

  // ---------------------------------------------------------------------
  // UTF-8
  // ---------------------------------------------------------------------

  predicate IsScalarValue(n: int) {
    0 <= n < 0xD800 || 0xE000 <= n < 0x110000
  }

  predicate IsContinuation(b: byte) {
    0x80 <= b < 0xC0
  }

  /** The UTF-8 encoding of one scalar value. */
  function EncodeChar(c: char): (bs: seq<byte>)
    ensures 1 <= |bs| <= 4
    ensures (c as int) < 0x80 <==> |bs| == 1
    ensures |bs| == 1 ==> bs[0] == c as int
    ensures |bs| > 1 ==> bs[0] >= 0xC2 && forall i :: 1 <= i < |bs| ==> IsContinuation(bs[i])
  {
    var n := c as int;
    if n < 0x80 then [n]
    else if n < 0x800 then [0xC0 + n / 64, 0x80 + n % 64]
    else if n < 0x10000 then [0xE0 + n / 4096, 0x80 + (n / 64) % 64, 0x80 + n % 64]
    else [0xF0 + n / 262144, 0x80 + (n / 4096) % 64, 0x80 + (n / 64) % 64, 0x80 + n % 64]
  }

  /** UTF-8 encode. */
  function Utf8Encode(s: string): seq<byte> {
    if s == [] then [] else EncodeChar(s[0]) + Utf8Encode(s[1..])
  }

  /** The six payload bits of a continuation byte. */
  function Low6(b: byte): (v: int)
    requires IsContinuation(b)
    ensures 0 <= v < 64 && v == b as int - 0x80
  {
    b as int - 0x80
  }

  /** The first scalar value of `bs` and the number of bytes it takes. A byte
      that does not start a well-formed sequence becomes U+FFFD on its own. */
  function DecodeFirst(bs: seq<byte>): (r: (char, nat))
    requires |bs| > 0
    ensures 1 <= r.1 <= |bs|
  {
    var b0 := bs[0] as int;
    if b0 < 0x80 then (b0 as char, 1)
    else if 0xC2 <= b0 < 0xE0 && |bs| >= 2 && IsContinuation(bs[1]) then
      (((b0 - 0xC0) * 64 + Low6(bs[1])) as char, 2)
    else if 0xE0 <= b0 < 0xF0 && |bs| >= 3 && IsContinuation(bs[1]) && IsContinuation(bs[2]) then
      var n := (b0 - 0xE0) * 4096 + Low6(bs[1]) * 64 + Low6(bs[2]);
      if n >= 0x800 && IsScalarValue(n) then (n as char, 3) else ('\U{FFFD}', 1)
    else if 0xF0 <= b0 < 0xF5 && |bs| >= 4 && IsContinuation(bs[1]) && IsContinuation(bs[2])
                              && IsContinuation(bs[3]) then
      var n := (b0 - 0xF0) * 262144 + Low6(bs[1]) * 4096 + Low6(bs[2]) * 64 + Low6(bs[3]);
      if 0x10000 <= n < 0x110000 then (n as char, 4) else ('\U{FFFD}', 1)
    else ('\U{FFFD}', 1)
  }

  /** UTF-8 decode without BOM. */
  function Utf8Decode(bs: seq<byte>): string
    decreases |bs|
  {
    if bs == [] then []
    else
      var (c, used) := DecodeFirst(bs);
      [c] + Utf8Decode(bs[used..])
  }

  /** A scalar value is rebuilt from its base-64 digits. */
  lemma Base64Digits(n: nat)
    ensures n / 4096 == (n / 64) / 64
    ensures n / 262144 == (n / 4096) / 64
    ensures n == (n / 64) * 64 + n % 64
    ensures n / 64 == ((n / 64) / 64) * 64 + (n / 64) % 64
    ensures n / 4096 == ((n / 4096) / 64) * 64 + (n / 4096) % 64
  {
    var q := n / 64;
    var r := n % 64;
    var q2 := q / 64;
    var r2 := q % 64;
    assert n == 4096 * q2 + (64 * r2 + r);
    var q3 := q2 / 64;
    var r3 := q2 % 64;
    assert n == 262144 * q3 + (4096 * r3 + 64 * r2 + r);
  }

  /** Decoding reads back exactly the character an encoding starts with. */
  lemma DecodeFirstOfEncoded(c: char, rest: seq<byte>)
    ensures DecodeFirst(EncodeChar(c) + rest) == (c, |EncodeChar(c)|)
  {
    var n := c as int;
    var bs := EncodeChar(c) + rest;
    Base64Digits(n);
    if n < 0x80 {
    } else if n < 0x800 {
      assert bs[0] == 0xC0 + n / 64 && bs[1] == 0x80 + n % 64;
      assert (bs[0] as int - 0xC0) * 64 + Low6(bs[1]) == n;
    } else if n < 0x10000 {
      assert bs[0] == 0xE0 + n / 4096 && bs[1] == 0x80 + (n / 64) % 64 && bs[2] == 0x80 + n % 64;
      assert (bs[0] as int - 0xE0) * 4096 + Low6(bs[1]) * 64 + Low6(bs[2]) == n;
    } else {
      assert bs[0] == 0xF0 + n / 262144;
      assert bs[1] == 0x80 + (n / 4096) % 64 && bs[2] == 0x80 + (n / 64) % 64 && bs[3] == 0x80 + n % 64;
      assert (bs[0] as int - 0xF0) * 262144 + Low6(bs[1]) * 4096 + Low6(bs[2]) * 64 + Low6(bs[3]) == n;
    }
  }

  /** UTF-8 decoding undoes UTF-8 encoding. */
  lemma {:induction false} Utf8RoundTrip(s: string)
    ensures Utf8Decode(Utf8Encode(s)) == s
  {
    if s != [] {
      var bs := Utf8Encode(s);
      DecodeFirstOfEncoded(s[0], Utf8Encode(s[1..]));
      assert bs[|EncodeChar(s[0])|..] == Utf8Encode(s[1..]);
      Utf8RoundTrip(s[1..]);
    }
  }

  // ---------------------------------------------------------------------
  // Percent-encoding
  // ---------------------------------------------------------------------

  predicate IsAsciiAlphanumeric(b: byte) {
    0x30 <= b <= 0x39 || 0x41 <= b <= 0x5A || 0x61 <= b <= 0x7A
  }

  /** Bytes outside the application/x-www-form-urlencoded percent-encode
      set: ASCII alphanumerics and `*`, `-`, `.`, `_`. */
  predicate IsUnescaped(b: byte) {
    IsAsciiAlphanumeric(b) || b == 0x2A || b == 0x2D || b == 0x2E || b == 0x5F
  }

  predicate IsHexDigit(b: byte) {
    0x30 <= b <= 0x39 || 0x41 <= b <= 0x46 || 0x61 <= b <= 0x66
  }

  /** Upper-case hexadecimal digit, as the standard writes them. */
  function HexDigit(d: nat): (b: byte)
    requires d < 16
    ensures IsHexDigit(b)
  {
    if d < 10 then 0x30 + d else 0x41 + (d - 10)
  }

  function HexValue(b: byte): (d: nat)
    requires IsHexDigit(b)
    ensures d < 16
  {
    if b <= 0x39 then b - 0x30 else if b <= 0x46 then b - 0x41 + 10 else b - 0x61 + 10
  }

  /** One byte of a name or value as the serializer writes it: space as `+`,
      unescaped bytes as they are, every other byte as `%XY`. */
  function EncodeByte(b: byte): (out: seq<byte>)
    ensures forall i :: 0 <= i < |out| ==> out[i] < 0x80 && out[i] != Ampersand && out[i] != EqualsSign
  {
    if b == Space then [Plus]
    else if IsUnescaped(b) then [b]
    else [Percent, HexDigit(b / 16), HexDigit(b % 16)]
  }

  function PercentEncodeBytes(bs: seq<byte>): (out: seq<byte>)
    ensures forall i :: 0 <= i < |out| ==> out[i] < 0x80 && out[i] != Ampersand && out[i] != EqualsSign
  {
    if bs == [] then [] else EncodeByte(bs[0]) + PercentEncodeBytes(bs[1..])
  }

  /** The parser's first step on a name or value: `+` becomes a space. */
  function PlusToSpace(bs: seq<byte>): (out: seq<byte>)
    ensures |out| == |bs|
    ensures forall i :: 0 <= i < |bs| ==> out[i] == if bs[i] == Plus then Space else bs[i]
  {
    seq(|bs|, i requires 0 <= i < |bs| => if bs[i] == Plus then Space else bs[i])
  }

  /** Percent-decode: `%XY` with two hex digits is the byte XY; anything
      else, a stray `%` included, stays as it is. */
  function PercentDecode(bs: seq<byte>): seq<byte>
    decreases |bs|
  {
    if bs == [] then []
    else if bs[0] == Percent && |bs| >= 3 && IsHexDigit(bs[1]) && IsHexDigit(bs[2]) then
      [HexValue(bs[1]) * 16 + HexValue(bs[2])] + PercentDecode(bs[3..])
    else [bs[0]] + PercentDecode(bs[1..])
  }

  /** Decoding the encoding of one byte gives that byte back, whatever
      follows it. */
  lemma DecodeEncodedByte(b: byte, rest: seq<byte>)
    ensures PercentDecode(PlusToSpace(EncodeByte(b)) + rest) == [b] + PercentDecode(rest)
  {
    var s := PlusToSpace(EncodeByte(b)) + rest;
    if b == Space {
      assert s[1..] == rest;
    } else if IsUnescaped(b) {
      assert s[1..] == rest;
    } else {
      assert s[3..] == rest;
      assert HexValue(HexDigit(b / 16)) * 16 + HexValue(HexDigit(b % 16)) == b;
    }
  }

  lemma PlusToSpaceAppend(a: seq<byte>, b: seq<byte>)
    ensures PlusToSpace(a + b) == PlusToSpace(a) + PlusToSpace(b)
  {
  }

  /** Percent-decoding undoes percent-encoding. */
  lemma {:induction false} PercentRoundTrip(bs: seq<byte>)
    ensures PercentDecode(PlusToSpace(PercentEncodeBytes(bs))) == bs
  {
    if bs != [] {
      PlusToSpaceAppend(EncodeByte(bs[0]), PercentEncodeBytes(bs[1..]));
      DecodeEncodedByte(bs[0], PlusToSpace(PercentEncodeBytes(bs[1..])));
      PercentRoundTrip(bs[1..]);
    }
  }

  // ---------------------------------------------------------------------
  // Names and values
  // ---------------------------------------------------------------------

  /** A name or value as the serializer writes it. */
  function EncodeComponent(s: string): (out: seq<byte>)
    ensures forall i :: 0 <= i < |out| ==> out[i] < 0x80 && out[i] != Ampersand && out[i] != EqualsSign
  {
    PercentEncodeBytes(Utf8Encode(s))
  }

  /** A name or value as the parser reads it. */
  function DecodeComponent(bs: seq<byte>): string {
    Utf8Decode(PercentDecode(PlusToSpace(bs)))
  }

  lemma ComponentRoundTrip(s: string)
    ensures DecodeComponent(EncodeComponent(s)) == s
  {
    PercentRoundTrip(Utf8Encode(s));
    Utf8RoundTrip(s);
  }

  // ---------------------------------------------------------------------
  // Serializer and parser
  // ---------------------------------------------------------------------

  type Pairs = seq<(string, string)>

  function SerializePair(p: (string, string)): seq<byte> {
    EncodeComponent(p.0) + [EqualsSign] + EncodeComponent(p.1)
  }

  /** The pairs, each as `name=value`, joined by `&`. */
  function SerializeBytes(pairs: Pairs): seq<byte> {
    if pairs == [] then []
    else if |pairs| == 1 then SerializePair(pairs[0])
    else SerializePair(pairs[0]) + [Ampersand] + SerializeBytes(pairs[1..])
  }

  /** The serializer's output is ASCII. */
  lemma {:induction false} SerializeIsAscii(pairs: Pairs)
    ensures forall i :: 0 <= i < |SerializeBytes(pairs)| ==> SerializeBytes(pairs)[i] < 0x80
  {
    if |pairs| > 1 {
      SerializeIsAscii(pairs[1..]);
    }
  }

  /** Bytes below 0x80 as the string of the same code points. */
  function AsciiString(bs: seq<byte>): (s: string)
    requires forall i :: 0 <= i < |bs| ==> bs[i] < 0x80
    ensures |s| == |bs|
    ensures forall i :: 0 <= i < |bs| ==> s[i] as int == bs[i]
  {
    seq(|bs|, i requires 0 <= i < |bs| => bs[i] as char)
  }

  /** `URLSearchParams.prototype.toString`. */
  function Serialize(pairs: Pairs): string {
    SerializeIsAscii(pairs);
    AsciiString(SerializeBytes(pairs))
  }

  /** The index of the first `b` in `bs`, or `|bs|` when there is none. */
  function IndexOf(bs: seq<byte>, b: byte): (i: nat)
    ensures i <= |bs|
    ensures forall j :: 0 <= j < i ==> bs[j] != b
    ensures i < |bs| ==> bs[i] == b
  {
    if bs == [] then 0
    else if bs[0] == b then 0
    else 1 + IndexOf(bs[1..], b)
  }

  /** One non-empty `&`-separated piece: split at the first `=`, or the whole
      piece is the name and the value is empty. */
  function ParsePiece(piece: seq<byte>): (string, string) {
    var j := IndexOf(piece, EqualsSign);
    if j < |piece| then (DecodeComponent(piece[..j]), DecodeComponent(piece[j + 1..]))
    else (DecodeComponent(piece), "")
  }

  /** The application/x-www-form-urlencoded parser on bytes: split on `&`,
      skip empty pieces, parse the rest in order. */
  function ParseBytes(bs: seq<byte>): Pairs
    decreases |bs|
  {
    if bs == [] then []
    else
      var i := IndexOf(bs, Ampersand);
      var piece := bs[..i];
      var rest := if i < |bs| then bs[i + 1..] else [];
      (if piece == [] then [] else [ParsePiece(piece)]) + ParseBytes(rest)
  }

  /** `new URLSearchParams(string)`: a leading `?` is dropped, the rest is
      UTF-8 encoded and parsed. */
  function Parse(input: string): Pairs {
    var s := if |input| > 0 && input[0] == '?' then input[1..] else input;
    ParseBytes(Utf8Encode(s))
  }

  lemma {:induction false} IndexOfFirst(x: seq<byte>, b: byte, y: seq<byte>)
    requires forall i :: 0 <= i < |x| ==> x[i] != b
    ensures IndexOf(x + [b] + y, b) == |x|
    ensures IndexOf(x, b) == |x|
  {
    if x != [] {
      assert (x + [b] + y)[1..] == x[1..] + [b] + y;
      IndexOfFirst(x[1..], b, y);
    }
  }

  lemma PairRoundTrip(p: (string, string))
    ensures ParsePiece(SerializePair(p)) == p
  {
    var name := EncodeComponent(p.0);
    var value := EncodeComponent(p.1);
    IndexOfFirst(name, EqualsSign, value);
    var piece := SerializePair(p);
    assert piece[..|name|] == name;
    assert piece[|name| + 1..] == value;
    ComponentRoundTrip(p.0);
    ComponentRoundTrip(p.1);
  }

  /** A non-empty piece free of `&`, followed by `&` and more input. */
  lemma ParseBytesStep(x: seq<byte>, y: seq<byte>)
    requires x != [] && forall i :: 0 <= i < |x| ==> x[i] != Ampersand
    ensures ParseBytes(x + [Ampersand] + y) == [ParsePiece(x)] + ParseBytes(y)
  {
    var bs := x + [Ampersand] + y;
    IndexOfFirst(x, Ampersand, y);
    assert bs[..|x|] == x;
    assert bs[|x| + 1..] == y;
  }

  /** A non-empty piece free of `&` that ends the input. */
  lemma ParseBytesLast(x: seq<byte>)
    requires x != [] && forall i :: 0 <= i < |x| ==> x[i] != Ampersand
    ensures ParseBytes(x) == [ParsePiece(x)]
  {
    IndexOfFirst(x, Ampersand, []);
    assert x[..|x|] == x;
  }

  /** Parsing what the serializer wrote gives back the same pairs, in the
      same order. */
  lemma {:induction false} ParseSerializeBytes(pairs: Pairs)
    ensures ParseBytes(SerializeBytes(pairs)) == pairs
  {
    if pairs != [] {
      var first := SerializePair(pairs[0]);
      assert |first| > 0 && forall i :: 0 <= i < |first| ==> first[i] != Ampersand;
      PairRoundTrip(pairs[0]);
      if |pairs| == 1 {
        ParseBytesLast(first);
      } else {
        ParseBytesStep(first, SerializeBytes(pairs[1..]));
        ParseSerializeBytes(pairs[1..]);
      }
    }
  }

  /** UTF-8 leaves ASCII text byte for byte. */
  lemma {:induction false} Utf8EncodeAscii(bs: seq<byte>)
    requires forall i :: 0 <= i < |bs| ==> bs[i] < 0x80
    ensures Utf8Encode(AsciiString(bs)) == bs
  {
    if bs != [] {
      assert AsciiString(bs)[1..] == AsciiString(bs[1..]);
      Utf8EncodeAscii(bs[1..]);
    }
  }

  /** The query string `toString` writes, read back by the URLSearchParams
      constructor, with or without the leading `?` of `location.search`. */
  lemma {:induction false} ParseSerialize(pairs: Pairs)
    ensures Parse(Serialize(pairs)) == pairs
    ensures Parse("?" + Serialize(pairs)) == pairs
  {
    var bs := SerializeBytes(pairs);
    SerializeIsAscii(pairs);
    Utf8EncodeAscii(bs);
    ParseSerializeBytes(pairs);
    var s := Serialize(pairs);
    if |s| > 0 {
      // The serializer never writes `?` (0x3F is percent-encoded).
      SerializeHasNoQuestionMark(pairs);
    }
    assert ("?" + s)[1..] == s;
  }

  lemma {:induction false} SerializeHasNoQuestionMark(pairs: Pairs)
    ensures forall i :: 0 <= i < |SerializeBytes(pairs)| ==> SerializeBytes(pairs)[i] != 0x3F
  {
    if pairs != [] {
      EncodedHasNoQuestionMark(Utf8Encode(pairs[0].0));
      EncodedHasNoQuestionMark(Utf8Encode(pairs[0].1));
      if |pairs| > 1 {
        SerializeHasNoQuestionMark(pairs[1..]);
      }
    }
  }

  lemma {:induction false} EncodedHasNoQuestionMark(bs: seq<byte>)
    ensures forall i :: 0 <= i < |PercentEncodeBytes(bs)| ==> PercentEncodeBytes(bs)[i] != 0x3F
  {
    if bs != [] {
      EncodedHasNoQuestionMark(bs[1..]);
    }
  }
}
