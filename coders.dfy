/**
 * The 14-bit signed codec (byte_drawer/coders.py).
 *
 * `Encoder` biases a number in [-8192, 8191] by 8192, keeps the low seven bits, moves
 * the next seven bits up by one position (so bit 7 of the result is always clear) and
 * renders the value the way Python's `hex()` does. `Decoder` parses two base-16 tokens
 * and computes `low + (high << 7) - 8192`.
 */
module Coders {
  import opened Failures

  const MinValue: int := -8192
  const MaxValue: int := 8191
  const Bias: int := 8192

  predicate InRange(n: int) {
    MinValue <= n <= MaxValue
  }

  // ---------------------------------------------------------------------------
  // Hexadecimal text
  // ---------------------------------------------------------------------------

  function Pow16(k: nat): (p: nat)
    ensures p >= 1
  {
    if k == 0 then 1 else 16 * Pow16(k - 1)
  }

  /** The value of one digit as `int(c, 16)` reads it, if `c` is a hexadecimal digit. */
  function HexDigitValue(c: char): (r: Option<nat>)
    ensures r.Some? ==> r.value < 16
  {
    if '0' <= c <= '9' then Some(c as int - '0' as int)
    else if 'a' <= c <= 'f' then Some(c as int - 'a' as int + 10)
    else if 'A' <= c <= 'F' then Some(c as int - 'A' as int + 10)
    else None
  }

  /** The base-16 value of a string of digits, most significant first. */
  function HexValue(s: string): (r: Option<nat>)
    ensures r.Some? <==> forall i :: 0 <= i < |s| ==> HexDigitValue(s[i]).Some?
    ensures r.Some? ==> r.value < Pow16(|s|)
    decreases |s|
  {
    if s == [] then Some(0)
    else
      assert forall i :: 0 <= i < |s| - 1 ==> s[..|s| - 1][i] == s[i];
      AppendDigit(HexValue(s[..|s| - 1]), s[|s| - 1])
  }

  /** One step of `HexValue`: shift the value of the leading digits and add the last one. */
  function AppendDigit(front: Option<nat>, last: char): (r: Option<nat>)
    ensures r.Some? <==> front.Some? && HexDigitValue(last).Some?
    ensures r.Some? ==> r.value == front.value * 16 + HexDigitValue(last).value
  {
    var d := HexDigitValue(last);
    if front.None? || d.None? then None
    else Some(front.value * 16 + d.value)
  }

  /**
   * `int(s, 16)` on a token: a non-empty string of hexadecimal digits parses, anything
   * else raises ValueError (here: None).
   */
  function ParseHex(s: string): (r: Option<nat>)
    ensures r.Some? <==> s != [] && forall i :: 0 <= i < |s| ==> HexDigitValue(s[i]).Some?
    ensures r.Some? ==> r.value < Pow16(|s|)
  {
    if s == [] then None else HexValue(s)
  }

  /** Lower-case digit, as `hex()` writes it. */
  function LowerHexDigit(d: nat): char
    requires d < 16
  {
    "0123456789abcdef"[d]
  }

  /** Upper-case digit, as the op-code streams write their tokens. */
  function UpperHexDigit(d: nat): char
    requires d < 16
  {
    "0123456789ABCDEF"[d]
  }

  /** The digits of `hex(v)` after its "0x" prefix: no leading zeros, "0" for zero. */
  function HexDigits(v: nat): (s: string)
    ensures 1 <= |s|
    ensures s[0] == '0' ==> v == 0
    ensures forall i :: 0 <= i < |s| ==> s[i] in "0123456789abcdef"
    decreases v
  {
    if v < 16 then [LowerHexDigit(v)] else HexDigits(v / 16) + [LowerHexDigit(v % 16)]
  }

  /** Python's `hex(v)` for a non-negative `v`. */
  function HexText(v: nat): (s: string)
    ensures |s| >= 3 && s[..2] == "0x"
  {
    "0x" + HexDigits(v)
  }

  /** A byte as a two-digit upper-case token, the form the op-code streams use. */
  function ByteToken(b: nat): (t: string)
    requires b < 256
    ensures |t| == 2
  {
    [UpperHexDigit(b / 16), UpperHexDigit(b % 16)]
  }

  lemma DigitsParse(d: nat)
    requires d < 16
    ensures HexDigitValue(LowerHexDigit(d)) == Some(d)
    ensures HexDigitValue(UpperHexDigit(d)) == Some(d)
  {
  }

  /** `hex()` and `int(., 16)` are inverse: the digits of `hex(v)` parse back to `v`. */
  lemma {:induction false} HexDigitsRoundTrip(v: nat)
    ensures ParseHex(HexDigits(v)) == Some(v)
    decreases v
  {
    var s := HexDigits(v);
    if v < 16 {
      DigitsParse(v);
      assert s[..0] == [];
    } else {
      HexDigitsRoundTrip(v / 16);
      DigitsParse(v % 16);
      assert s[..|s| - 1] == HexDigits(v / 16);
    }
  }

  /** A two-digit byte token parses back to its byte. */
  lemma ByteTokenRoundTrip(b: nat)
    requires b < 256
    ensures ParseHex(ByteToken(b)) == Some(b)
  {
    var t := ByteToken(b);
    DigitsParse(b / 16);
    DigitsParse(b % 16);
    assert t[..1][..0] == [];
    assert t[..1] == [UpperHexDigit(b / 16)];
    assert HexValue(t[..1]) == Some(b / 16);
    assert t[..|t| - 1] == t[..1];
  }

  // ---------------------------------------------------------------------------
  // Encoder
  // ---------------------------------------------------------------------------

  /**
   * The arithmetic of `Encoder.parse`: `d = n + 8192`, `(d & 0x7F) + ((d & 0x3F80) << 1)`.
   * Python's `&` with a non-negative mask is the Euclidean remainder, so this is defined,
   * and bounded, for every `n`; bit 7 of the value is always zero.
   */
  function EncodeValue(n: int): (v: int)
    ensures 0 <= v <= 0x7F7F
    ensures (v / 128) % 2 == 0
  {
    var d := n + Bias;
    var lowSeven := d % 128;
    var highSeven := (d / 128) % 128 * 128;
    var v := lowSeven + highSeven * 2;
    assert v == lowSeven + 256 * ((d / 128) % 128);
    assert v / 128 == 2 * ((d / 128) % 128);
    v
  }

  /** `Encoder.validate_parameters` followed by `Encoder.parse`. */
  function Encoder(n: int): (r: Result<string>)
    ensures r.Ok? <==> InRange(n)
    ensures r.Err? ==> r.error == ValueError
    ensures r.Ok? ==> r.value == HexText(EncodeValue(n))
    ensures r.Ok? ==> |r.value| >= 3 && r.value[..2] == "0x" && ParseHex(r.value[2..]) == Some(EncodeValue(n))
  {
    if n < MinValue || n > MaxValue then Err(ValueError)
    else
      var text := HexText(EncodeValue(n));
      HexDigitsRoundTrip(EncodeValue(n));
      assert text[2..] == HexDigits(EncodeValue(n));
      Ok(text)
  }

  // ---------------------------------------------------------------------------
  // Decoder
  // ---------------------------------------------------------------------------

  /** `Decoder.__init__`: both tokens are read with `int(token, 16)`, high first. */
  function DecoderBytes(highToken: string, lowToken: string): (r: Result<(nat, nat)>)
    ensures r.Ok? <==> ParseHex(highToken).Some? && ParseHex(lowToken).Some?
    ensures r.Err? ==> r.error == ValueError
    ensures r.Ok? ==> r.value == (ParseHex(highToken).value, ParseHex(lowToken).value)
    ensures r.Ok? ==> r.value.0 < Pow16(|highToken|) && r.value.1 < Pow16(|lowToken|)
  {
    var high := ParseHex(highToken);
    if high.None? then Err(ValueError)
    else
      var low := ParseHex(lowToken);
      if low.None? then Err(ValueError)
      else Ok((high.value, low.value))
  }

  /** `Decoder.parse`: `low + (high << 7) - 8192`. */
  function Decode(high: int, low: int): int {
    low + high * 128 - Bias
  }

  /**
   * `Decoder.validate_parameters` as written: it rejects a high byte below -8192 or a
   * low byte above 8191, which parsed tokens of one or two digits never are.
   */
  function DecoderValidate(high: int, low: int): (r: Result<()>)
    ensures r.Err? ==> r.error == ValueError
    ensures 0 <= high && low < 256 ==> r.Ok?
  {
    if high < -8192 || low > 8191 then Err(ValueError) else Ok(())
  }

  /** The standalone decoder: construct (parse the tokens), validate, then decode. */
  function Decoder(highToken: string, lowToken: string): (r: Result<int>)
    ensures r.Ok? <==> ParseHex(highToken).Some? && ParseHex(lowToken).Some?
                       && ParseHex(lowToken).value <= 8191
    ensures r.Err? ==> r.error == ValueError
    ensures r.Ok? ==> r.value == Decode(ParseHex(highToken).value, ParseHex(lowToken).value)
  {
    var bytes :- DecoderBytes(highToken, lowToken);
    var _ :- DecoderValidate(bytes.0, bytes.1);
    Ok(Decode(bytes.0, bytes.1))
  }

  // ---------------------------------------------------------------------------
  // Round trips
  // ---------------------------------------------------------------------------

  /**
   * Encode then decode: splitting the encoded value into `high = v >> 8` and
   * `low = v & 0xFF` and decoding the two gives back `n`.
   */
  lemma EncodeDecodeRoundTrip(n: int)
    requires InRange(n)
    ensures var v := EncodeValue(n); Decode(v / 256, v % 256) == n
  {
    var d := n + Bias;
    var v := EncodeValue(n);
    var q := (d / 128) % 128;
    assert v == d % 128 + 256 * q;
    assert v / 256 == q && v % 256 == d % 128;
    assert d / 128 == q;
  }

  /**
   * Decode then encode: any pair of seven-bit bytes decodes to a number whose encoding
   * is exactly `high << 8 | low`.
   */
  lemma DecodeEncodeRoundTrip(high: int, low: int)
    requires 0 <= high < 128 && 0 <= low < 128
    ensures InRange(Decode(high, low))
    ensures EncodeValue(Decode(high, low)) == high * 256 + low
  {
    var d := Decode(high, low) + Bias;
    assert d == high * 128 + low;
    assert d / 128 == high && d % 128 == low;
  }

  /** The two tokens of an in-range number, high byte first. */
  function EncodeTokens(n: int): (t: (string, string))
    requires InRange(n)
  {
    var v := EncodeValue(n);
    (ByteToken(v / 256), ByteToken(v % 256))
  }

  /** Writing the encoded value as two byte tokens and running the decoder on them gives back `n`. */
  lemma TokenRoundTrip(n: int)
    requires InRange(n)
    ensures Decoder(EncodeTokens(n).0, EncodeTokens(n).1) == Ok(n)
  {
    var v := EncodeValue(n);
    ByteTokenRoundTrip(v / 256);
    ByteTokenRoundTrip(v % 256);
    EncodeDecodeRoundTrip(n);
  }

  /**
   * The decoder's range check never rejects tokens of one or two hexadecimal digits:
   * for them, validation is a no-op and the decoder is just parse-and-decode.
   */
  lemma ValidationIsVacuous(highToken: string, lowToken: string)
    requires |highToken| <= 2 && |lowToken| <= 2
    requires ParseHex(highToken).Some? && ParseHex(lowToken).Some?
    ensures DecoderValidate(ParseHex(highToken).value, ParseHex(lowToken).value).Ok?
    ensures Decoder(highToken, lowToken)
         == Ok(Decode(ParseHex(highToken).value, ParseHex(lowToken).value))
  {
    assert Pow16(2) == 256;
    assert Pow16(|lowToken|) <= 256;
  }

  // ---------------------------------------------------------------------------
  // Known vectors
  // ---------------------------------------------------------------------------

  /** Appending a digit to `hex()`: the digits of `16 q + r` are those of `q` followed by `r`. */
  lemma HexDigitsAppend(q: nat, r: nat)
    requires 1 <= q && r < 16
    ensures HexDigits(q * 16 + r) == HexDigits(q) + [LowerHexDigit(r)]
  {
    var v := q * 16 + r;
    assert v / 16 == q && v % 16 == r;
  }

  /** The encoded value from the two seven-bit groups of the biased number. */
  lemma EncodeValueOf(n: int, high: int, low: int)
    requires 0 <= high < 128 && 0 <= low < 128 && n + Bias == high * 128 + low
    ensures EncodeValue(n) == high * 256 + low
  {
    var d := n + Bias;
    assert d / 128 == high && d % 128 == low;
  }

  lemma EncodeVector6111()
    ensures Encoder(6111) == Ok("0x6f5f")
  {
    EncodeValueOf(6111, 0x6F, 0x5F);
    assert HexDigits(0x6) == "6";
    HexDigitsAppend(0x6, 15);
    assert HexDigits(0x6F) == "6f";
    HexDigitsAppend(0x6F, 5);
    assert HexDigits(0x6F5) == "6f5";
    HexDigitsAppend(0x6F5, 15);
    assert HexDigits(0x6F5F) == "6f5f";
    assert HexText(0x6F5F) == "0x6f5f";
  }

  lemma EncodeVector340()
    ensures Encoder(340) == Ok("0x4254")
  {
    EncodeValueOf(340, 0x42, 0x54);
    assert HexDigits(0x4) == "4";
    HexDigitsAppend(0x4, 2);
    assert HexDigits(0x42) == "42";
    HexDigitsAppend(0x42, 5);
    assert HexDigits(0x425) == "425";
    HexDigitsAppend(0x425, 4);
    assert HexDigits(0x4254) == "4254";
    assert HexText(0x4254) == "0x4254";
  }

  lemma EncodeVectorMinus2628()
    ensures Encoder(-2628) == Ok("0x2b3c")
  {
    EncodeValueOf(-2628, 0x2B, 0x3C);
    assert HexDigits(0x2) == "2";
    HexDigitsAppend(0x2, 11);
    assert HexDigits(0x2B) == "2b";
    HexDigitsAppend(0x2B, 3);
    assert HexDigits(0x2B3) == "2b3";
    HexDigitsAppend(0x2B3, 12);
    assert HexDigits(0x2B3C) == "2b3c";
    assert HexText(0x2B3C) == "0x2b3c";
  }

  lemma EncodeVectorMinus255()
    ensures Encoder(-255) == Ok("0x3e01")
  {
    EncodeValueOf(-255, 0x3E, 0x01);
    assert HexDigits(0x3) == "3";
    HexDigitsAppend(0x3, 14);
    assert HexDigits(0x3E) == "3e";
    HexDigitsAppend(0x3E, 0);
    assert HexDigits(0x3E0) == "3e0";
    HexDigitsAppend(0x3E0, 1);
    assert HexDigits(0x3E01) == "3e01";
    assert HexText(0x3E01) == "0x3e01";
  }

  lemma EncodeVector7550()
    ensures Encoder(7550) == Ok("0x7a7e")
  {
    EncodeValueOf(7550, 0x7A, 0x7E);
    assert HexDigits(0x7) == "7";
    HexDigitsAppend(0x7, 10);
    assert HexDigits(0x7A) == "7a";
    HexDigitsAppend(0x7A, 7);
    assert HexDigits(0x7A7) == "7a7";
    HexDigitsAppend(0x7A7, 14);
    assert HexDigits(0x7A7E) == "7a7e";
    assert HexText(0x7A7E) == "0x7a7e";
  }

  /** The encoder's known vectors, and its range check at both ends. */
  lemma EncodeVectors()
    ensures Encoder(6111) == Ok("0x6f5f")
    ensures Encoder(340) == Ok("0x4254")
    ensures Encoder(-2628) == Ok("0x2b3c")
    ensures Encoder(-255) == Ok("0x3e01")
    ensures Encoder(7550) == Ok("0x7a7e")
    ensures Encoder(8191).Ok? && Encoder(-8192).Ok?
    ensures Encoder(8192) == Err(ValueError) && Encoder(-8193) == Err(ValueError)
  {
    EncodeVector6111();
    EncodeVector340();
    EncodeVectorMinus2628();
    EncodeVectorMinus255();
    EncodeVector7550();
  }

  lemma DecodeVectors()
    ensures Decoder("0A", "0A") == Ok(-6902)
    ensures Decoder("00", "29") == Ok(-8151)
    ensures Decoder("3F", "0F") == Ok(-113)
    ensures Decoder("44", "00") == Ok(512)
    ensures Decoder("5E", "7F") == Ok(3967)
  {
    assert ParseHex("0A") == Some(10) && ParseHex("00") == Some(0) && ParseHex("29") == Some(41);
    assert ParseHex("3F") == Some(63) && ParseHex("0F") == Some(15) && ParseHex("44") == Some(68);
    assert ParseHex("5E") == Some(94) && ParseHex("7F") == Some(127);
  }
}
