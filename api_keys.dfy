/**
 * The API-key encoder shared by the webhook and the manual resend script:
 * the fixed prefix "zf_" followed by every random byte written as two
 * lower-case hexadecimal digits.  The random bytes themselves are an input
 * (the CSPRNG is not modelled); the decoder below is the encoder's partner.
 */
module ApiKeys {
  import opened Wrappers

  /** An element of a `Uint8Array`. */
  newtype byte = b: int | 0 <= b < 256

  /** The number of random bytes behind every key (`new Uint8Array(32)`). */
  const KeyBytes: nat := 32

  /** The random bytes one key is made from. */
  type Entropy = s: seq<byte> | |s| == KeyBytes witness seq(KeyBytes, _ => 0 as byte)

  const Prefix: string := "zf_"

  /** The number of key characters the resend script prints. */
  const PreviewLength: nat := 20

  predicate IsLowerHex(c: char) {
    '0' <= c <= '9' || 'a' <= c <= 'f'
  }

  /** The digit `Number.prototype.toString(16)` writes for a value below 16. */
  function HexDigit(n: int): (c: char)
    requires 0 <= n < 16
    ensures IsLowerHex(c)
  {
    if n < 10 then ('0' as int + n) as char else ('a' as int + (n - 10)) as char
  }

  /** The value of a lower-case hexadecimal digit; it inverts `HexDigit`. */
  function HexValue(c: char): (n: int)
    requires IsLowerHex(c)
    ensures 0 <= n < 16 && HexDigit(n) == c
  {
    if c <= '9' then c as int - '0' as int else c as int - 'a' as int + 10
  }

  /** `n.toString(16)` for a non-negative integer: shortest lower-case hex. */
  function ToHexString(n: nat): (s: string)
    decreases n
  {
    if n < 16 then [HexDigit(n)] else ToHexString(n / 16) + [HexDigit(n % 16)]
  }

  /** `s.padStart(width, fill)` for a one-character `fill`. */
  function PadStart(s: string, width: nat, fill: char): (r: string)
    ensures |r| == if |s| >= width then |s| else width
    ensures r[|r| - |s|..] == s
    ensures forall i :: 0 <= i < |r| - |s| ==> r[i] == fill
  {
    if |s| >= width then s else seq(width - |s|, _ => fill) + s
  }

  /** `byte.toString(16).padStart(2, '0')`, the per-byte encoding. */
  function ByteToHex(b: byte): string {
    PadStart(ToHexString(b as nat), 2, '0')
  }

  /** The two hex digits of a byte, high nibble first. */
  function TwoDigits(b: byte): string {
    [HexDigit(b as int / 16), HexDigit(b as int % 16)]
  }

  /** Padding the shortest hex form to two places gives both nibbles' digits. */
  lemma ByteToHexIsTwoDigits(b: byte)
    ensures ByteToHex(b) == TwoDigits(b)
  {
    var n := b as int;
    if n >= 16 {
      assert ToHexString(n / 16) == [HexDigit(n / 16)];
    }
  }

  /** `Array.prototype.join('')`. */
  function Join(parts: seq<string>): string {
    if parts == [] then "" else parts[0] + Join(parts[1..])
  }

  /** `Array.from(bytes, ByteToHex)`. */
  function HexPairs(bytes: seq<byte>): seq<string> {
    seq(|bytes|, i requires 0 <= i < |bytes| => ByteToHex(bytes[i]))
  }

  /** `Array.from(bytes, ByteToHex).join('')`, as the source writes it. */
  function EncodeBytes(bytes: seq<byte>): string {
    Join(HexPairs(bytes))
  }

  /** The same encoding, byte by byte. */
  function HexEncode(bytes: seq<byte>): string {
    if bytes == [] then "" else TwoDigits(bytes[0]) + HexEncode(bytes[1..])
  }

  /** Mapping every byte and joining the pieces is encoding byte by byte. */
  lemma {:induction false} EncodeBytesIsHexEncode(bytes: seq<byte>)
    ensures EncodeBytes(bytes) == HexEncode(bytes)
  {
    if bytes == [] {
      assert HexPairs(bytes) == [];
    } else {
      assert HexPairs(bytes)[1..] == HexPairs(bytes[1..]);
      ByteToHexIsTwoDigits(bytes[0]);
      EncodeBytesIsHexEncode(bytes[1..]);
    }
  }

  /** The encoding of `[b] + rest` is the encoding of `b` followed by that of `rest`. */
  lemma PrependByte(b: byte, rest: seq<byte>)
    ensures HexEncode([b] + rest) == TwoDigits(b) + HexEncode(rest)
  {
    assert ([b] + rest)[1..] == rest;
  }

  /** Two hex digits per byte. */
  lemma {:induction false} EncodeLength(bytes: seq<byte>)
    ensures |HexEncode(bytes)| == 2 * |bytes|
  {
    if bytes != [] {
      EncodeLength(bytes[1..]);
    }
  }

  /** Byte `i` is written at positions 2i and 2i+1, high nibble first. */
  lemma {:induction false} EncodeAt(bytes: seq<byte>, i: nat)
    requires i < |bytes|
    ensures 2 * i + 1 < |HexEncode(bytes)|
    ensures HexEncode(bytes)[2 * i] == HexDigit(bytes[i] as int / 16)
    ensures HexEncode(bytes)[2 * i + 1] == HexDigit(bytes[i] as int % 16)
  {
    var rest := bytes[1..];
    var head := TwoDigits(bytes[0]);
    var e := HexEncode(bytes);
    assert e == head + HexEncode(rest);
    EncodeLength(rest);
    if i == 0 {
      assert e[0] == head[0] && e[1] == head[1];
    } else {
      EncodeAt(rest, i - 1);
      assert e[2 * i] == HexEncode(rest)[2 * (i - 1)];
      assert e[2 * i + 1] == HexEncode(rest)[2 * (i - 1) + 1];
      assert rest[i - 1] == bytes[i];
    }
  }

  /**
   * Every byte becomes exactly two lower-case hex digits, high nibble first,
   * at positions 2i and 2i+1.
   */
  lemma HexEncodeShape(bytes: seq<byte>)
    ensures |HexEncode(bytes)| == 2 * |bytes|
    ensures forall i :: 0 <= i < |bytes| ==>
      HexEncode(bytes)[2 * i] == HexDigit(bytes[i] as int / 16) &&
      HexEncode(bytes)[2 * i + 1] == HexDigit(bytes[i] as int % 16)
    ensures forall j :: 0 <= j < |HexEncode(bytes)| ==> IsLowerHex(HexEncode(bytes)[j])
  {
    EncodeLength(bytes);
    forall i | 0 <= i < |bytes|
      ensures HexEncode(bytes)[2 * i] == HexDigit(bytes[i] as int / 16)
      ensures HexEncode(bytes)[2 * i + 1] == HexDigit(bytes[i] as int % 16)
    {
      EncodeAt(bytes, i);
    }
    forall j | 0 <= j < |HexEncode(bytes)| ensures IsLowerHex(HexEncode(bytes)[j]) {
      var i := j / 2;
      assert j == 2 * i || j == 2 * i + 1;
      EncodeAt(bytes, i);
    }
  }

  /**
   * `generateApiKey()` with the random bytes given: "zf_" followed by two
   * lower-case hex digits per byte.
   */
  function GenerateApiKey(bytes: seq<byte>): (key: string)
    ensures |key| == |Prefix| + 2 * |bytes|
    ensures key[..|Prefix|] == Prefix
    ensures forall j :: |Prefix| <= j < |key| ==> IsLowerHex(key[j])
    ensures forall i :: 0 <= i < |bytes| ==>
      key[|Prefix| + 2 * i] == HexDigit(bytes[i] as int / 16) &&
      key[|Prefix| + 2 * i + 1] == HexDigit(bytes[i] as int % 16)
  {
    EncodeBytesIsHexEncode(bytes);
    HexEncodeShape(bytes);
    Prefix + EncodeBytes(bytes)
  }

  /** A key made from the 32 random bytes is 67 characters long. */
  lemma KeyLength(entropy: Entropy)
    ensures |GenerateApiKey(entropy)| == 67
  {
  }

  /** The byte with high nibble `hi` and low nibble `lo`. */
  function FromNibbles(hi: int, lo: int): (b: byte)
    requires 0 <= hi < 16 && 0 <= lo < 16
    ensures b as int / 16 == hi && b as int % 16 == lo
  {
    (16 * hi + lo) as byte
  }

  /** Reads pairs of lower-case hex digits back into bytes. */
  function DecodeHex(s: string): Option<seq<byte>>
    decreases |s|
  {
    if |s| == 0 then Some([])
    else if |s| == 1 || !IsLowerHex(s[0]) || !IsLowerHex(s[1]) then None
    else
      match DecodeHex(s[2..])
      case None => None
      case Some(rest) => Some([FromNibbles(HexValue(s[0]), HexValue(s[1]))] + rest)
  }

  /** Strips the "zf_" prefix and decodes the hex digits after it. */
  function ParseApiKey(key: string): Option<seq<byte>> {
    if |key| >= |Prefix| && key[..|Prefix|] == Prefix then DecodeHex(key[|Prefix|..]) else None
  }

  /** `HexValue` inverts `HexDigit`. */
  lemma HexValueOfDigit(n: int)
    requires 0 <= n < 16
    ensures HexValue(HexDigit(n)) == n
  {
  }

  /** A byte is rebuilt from its two nibbles. */
  lemma NibbleRoundTrip(b: byte)
    ensures FromNibbles(b as int / 16, b as int % 16) == b
  {
  }

  /** Decoding the two digits of one byte and then the rest. */
  lemma DecodePrepend(b: byte, rest: seq<byte>)
    requires DecodeHex(HexEncode(rest)) == Some(rest)
    ensures DecodeHex(HexEncode([b] + rest)) == Some([b] + rest)
  {
    var hi, lo := b as int / 16, b as int % 16;
    var e := HexEncode([b] + rest);
    PrependByte(b, rest);
    assert e == [HexDigit(hi), HexDigit(lo)] + HexEncode(rest);
    assert e[0] == HexDigit(hi) && e[1] == HexDigit(lo) && e[2..] == HexEncode(rest);
    HexValueOfDigit(hi);
    HexValueOfDigit(lo);
    NibbleRoundTrip(b);
  }

  /** Decoding recovers the bytes that were encoded. */
  lemma {:induction false} DecodeEncode(bytes: seq<byte>)
    ensures DecodeHex(HexEncode(bytes)) == Some(bytes)
  {
    if bytes != [] {
      DecodeEncode(bytes[1..]);
      DecodePrepend(bytes[0], bytes[1..]);
      assert [bytes[0]] + bytes[1..] == bytes;
    }
  }

  /** The digits of the byte `FromNibbles` builds are the digits it was built from. */
  lemma DigitsOfDecodedByte(c0: char, c1: char)
    requires IsLowerHex(c0) && IsLowerHex(c1)
    ensures TwoDigits(FromNibbles(HexValue(c0), HexValue(c1))) == [c0, c1]
  {
  }

  /**
   * The decoder accepts nothing but canonical encodings: whatever it
   * decodes is what the encoder writes for the result.
   */
  lemma {:induction false} EncodeDecode(s: string, bytes: seq<byte>)
    requires DecodeHex(s) == Some(bytes)
    ensures HexEncode(bytes) == s
    decreases |s|
  {
    if |s| != 0 {
      var tail := s[2..];
      var rest := DecodeHex(tail).value;
      var b := FromNibbles(HexValue(s[0]), HexValue(s[1]));
      assert bytes == [b] + rest;
      EncodeDecode(tail, rest);
      PrependByte(b, rest);
      DigitsOfDecodedByte(s[0], s[1]);
      assert s == [s[0], s[1]] + tail;
    }
  }

  /** Parsing a generated key gives back its random bytes. */
  lemma ParseGenerate(bytes: seq<byte>)
    ensures ParseApiKey(GenerateApiKey(bytes)) == Some(bytes)
  {
    var key := GenerateApiKey(bytes);
    EncodeBytesIsHexEncode(bytes);
    assert key[|Prefix|..] == HexEncode(bytes);
    DecodeEncode(bytes);
  }

  /** Different random bytes never give the same key. */
  lemma GenerateInjective(a: seq<byte>, b: seq<byte>)
    requires GenerateApiKey(a) == GenerateApiKey(b)
    ensures a == b
  {
    ParseGenerate(a);
    ParseGenerate(b);
  }

  /** `key.substring(0, 20)`: the first 20 characters, or all of a shorter key. */
  function Preview(key: string): (p: string)
    ensures |p| <= PreviewLength && p <= key
    ensures |key| >= PreviewLength ==> |p| == PreviewLength
    ensures |key| < PreviewLength ==> p == key
  {
    if |key| <= PreviewLength then key else key[..PreviewLength]
  }

  /** The printed preview of a generated key is "zf_" and 17 hex digits. */
  lemma PreviewOfGeneratedKey(entropy: Entropy)
    ensures |Preview(GenerateApiKey(entropy))| == PreviewLength
    ensures Preview(GenerateApiKey(entropy))[..|Prefix|] == Prefix
    ensures forall j :: |Prefix| <= j < PreviewLength ==> IsLowerHex(Preview(GenerateApiKey(entropy))[j])
  {
    var key := GenerateApiKey(entropy);
    assert Preview(key) == key[..PreviewLength];
  }
}
