/** Secrets as hexadecimal text: base16, section 8 of RFC 4648, written in lower case. */
module Hex {
  import opened Common

  type Digit = d: int | 0 <= d < 16

  const DIGITS := "0123456789abcdef"

  function DigitChar(d: Digit): char {
    DIGITS[d]
  }

  /** Both cases are accepted. */
  function CharDigit(c: char): Option<Digit> {
    if '0' <= c <= '9' then Some(c as int - '0' as int)
    else if 'a' <= c <= 'f' then Some(c as int - 'a' as int + 10)
    else if 'A' <= c <= 'F' then Some(c as int - 'A' as int + 10)
    else None
  }

  function Lower(c: char): char {
    if 'A' <= c <= 'F' then (c as int - 'A' as int + 'a' as int) as char else c
  }

  function Encode(bytes: seq<Byte>): string {
    if bytes == [] then [] else [DigitChar(bytes[0] / 16), DigitChar(bytes[0] % 16)] + Encode(bytes[1..])
  }

  /** Fails on an odd length and on any character that is not a digit. */
  function Decode(text: string): Option<seq<Byte>> {
    if text == [] then Some([])
    else if |text| == 1 then None
    else
      var hi, lo, rest := CharDigit(text[0]), CharDigit(text[1]), Decode(text[2..]);
      if hi.Some? && lo.Some? && rest.Some? then Some([hi.value * 16 + lo.value] + rest.value) else None
  }

  /** Well-formed hexadecimal text, said without decoding it. */
  predicate WellFormed(text: string) {
    |text| % 2 == 0
    && forall i :: 0 <= i < |text| ==> '0' <= text[i] <= '9' || 'a' <= text[i] <= 'f' || 'A' <= text[i] <= 'F'
  }

  function ToLower(text: string): string {
    seq(|text|, i requires 0 <= i < |text| => Lower(text[i]))
  }

  lemma DigitRoundTrip(d: Digit)
    ensures CharDigit(DigitChar(d)) == Some(d)
  {
    assert DIGITS[0] == '0' && DIGITS[9] == '9' && DIGITS[10] == 'a' && DIGITS[15] == 'f';
  }

  lemma CharRoundTrip(c: char)
    requires CharDigit(c).Some?
    ensures DigitChar(CharDigit(c).value) == Lower(c)
  {
  }

  /** Decoding inverts encoding, for every byte string. */
  lemma {:induction false} DecodeInvertsEncode(bytes: seq<Byte>)
    ensures Decode(Encode(bytes)) == Some(bytes) && |Encode(bytes)| == 2 * |bytes|
  {
    if bytes != [] {
      DecodeInvertsEncode(bytes[1..]);
      DigitRoundTrip(bytes[0] / 16);
      DigitRoundTrip(bytes[0] % 16);
      var text := Encode(bytes);
      assert text[2..] == Encode(bytes[1..]);
      assert [bytes[0]] + bytes[1..] == bytes;
    }
  }

  /** Byte by byte: the high half first, each half as its digit of the alphabet. */
  lemma {:induction false} EncodedAt(bytes: seq<Byte>, i: nat)
    requires i < |bytes|
    ensures |Encode(bytes)| == 2 * |bytes|
    ensures Encode(bytes)[2 * i] == "0123456789abcdef"[bytes[i] / 16]
    ensures Encode(bytes)[2 * i + 1] == "0123456789abcdef"[bytes[i] % 16]
  {
    DecodeInvertsEncode(bytes);
    if i > 0 {
      EncodedAt(bytes[1..], i - 1);
      assert Encode(bytes)[2..] == Encode(bytes[1..]);
    }
  }

  /** Encoding what was decoded gives the text back in lower case. */
  lemma {:induction false} EncodeInvertsDecode(text: string)
    requires Decode(text).Some?
    ensures Encode(Decode(text).value) == ToLower(text) && |Decode(text).value| * 2 == |text|
  {
    if text != [] {
      EncodeInvertsDecode(text[2..]);
      CharRoundTrip(text[0]);
      CharRoundTrip(text[1]);
      var hi: int := CharDigit(text[0]).value;
      var lo: int := CharDigit(text[1]).value;
      var bytes := Decode(text).value;
      assert bytes[0] == hi * 16 + lo && bytes[1..] == Decode(text[2..]).value;
      assert bytes[0] / 16 == hi && bytes[0] % 16 == lo;
      assert ToLower(text) == [Lower(text[0]), Lower(text[1])] + ToLower(text[2..]);
    }
  }

  /** Exactly the well-formed texts decode. */
  lemma {:induction false} DecodesIffWellFormed(text: string)
    ensures Decode(text).Some? <==> WellFormed(text)
  {
    if |text| >= 2 {
      DecodesIffWellFormed(text[2..]);
      assert forall i :: 2 <= i < |text| ==> text[i] == text[2..][i - 2];
      assert forall i :: 0 <= i < |text[2..]| ==> text[2..][i] == text[i + 2];
      if WellFormed(text) {
        assert WellFormed(text[2..]);
        assert CharDigit(text[0]).Some? && CharDigit(text[1]).Some?;
      }
    }
  }

  /** What adding a client tunnel stores: the secret decoded and encoded again. */
  function Normalise(text: string): Option<string> {
    var bytes := Decode(text);
    if bytes.None? then None else Some(Encode(bytes.value))
  }

  /** Normalising keeps the secret, and normalising again changes nothing. */
  lemma NormaliseKeepsSecret(text: string)
    requires Normalise(text).Some?
    ensures Decode(Normalise(text).value) == Decode(text)
    ensures Normalise(Normalise(text).value) == Normalise(text)
    ensures Normalise(text).value == ToLower(text)
  {
    DecodeInvertsEncode(Decode(text).value);
    EncodeInvertsDecode(text);
  }
}
