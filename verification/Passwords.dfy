/**
 generateSecurePassword (cmd/frkrup/helm.go): random bytes in the lower-case
 base 16 encoding of section 8 of RFC 4648.  The bytes are a parameter.
 */
module Passwords {
  import opened Wrappers

  type Byte = n: int | 0 <= n < 256

  function HexDigit(n: int): char
    requires 0 <= n < 16
  {
    if n < 10 then ('0' as int + n) as char else ('a' as int + n - 10) as char
  }

  function HexValue(c: char): Option<int> {
    if '0' <= c <= '9' then Some(c as int - '0' as int)
    else if 'a' <= c <= 'f' then Some(c as int - 'a' as int + 10)
    else None
  }

  /** hex.EncodeToString */
  function HexEncode(bytes: seq<Byte>): string {
    if bytes == [] then "" else [HexDigit(bytes[0] / 16), HexDigit(bytes[0] % 16)] + HexEncode(bytes[1..])
  }

  function HexDecode(text: string): Option<seq<Byte>> {
    if text == "" then Some([])
    else if |text| == 1 then None
    else
      match (HexValue(text[0]), HexValue(text[1]), HexDecode(text[2..]))
      case (Some(hi), Some(lo), Some(rest)) =>
        if 0 <= hi < 16 && 0 <= lo < 16 then Some([16 * hi + lo] + rest) else None
      case _ => None
  }

  lemma DigitRoundTrip(n: int)
    requires 0 <= n < 16
    ensures HexValue(HexDigit(n)) == Some(n)
  {
  }

  /** The text has two characters a byte and decodes back to the bytes. */
  lemma {:induction false} HexRoundTrip(bytes: seq<Byte>)
    ensures |HexEncode(bytes)| == 2 * |bytes|
    ensures HexDecode(HexEncode(bytes)) == Some(bytes)
  {
    if bytes != [] {
      HexRoundTrip(bytes[1..]);
      DigitRoundTrip(bytes[0] / 16);
      DigitRoundTrip(bytes[0] % 16);
      var text := HexEncode(bytes);
      assert text[2..] == HexEncode(bytes[1..]);
      assert bytes == [bytes[0]] + bytes[1..];
    }
  }

  /** The source of randomness fills length/2 bytes or fails. */
  predicate Draw(random: Option<seq<Byte>>, length: nat) {
    random.Some? ==> |random.value| == length / 2
  }

  function SecurePassword(random: Option<seq<Byte>>): Option<string> {
    match random
    case None => None
    case Some(bytes) => Some(HexEncode(bytes))
  }

  /** A password of a given length: even-sized, non-empty from length two on, and different for different bytes. */
  lemma PasswordShape(length: nat, r1: seq<Byte>, r2: seq<Byte>)
    requires Draw(Some(r1), length) && Draw(Some(r2), length)
    ensures |HexEncode(r1)| == 2 * (length / 2)
    ensures HexEncode(r1) == HexEncode(r2) <==> r1 == r2
    ensures length >= 2 ==> HexEncode(r1) != ""
  {
    HexRoundTrip(r1);
    HexRoundTrip(r2);
  }
}
