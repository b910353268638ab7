/**
 * Bytes, the 20-byte HMAC-SHA1 digest, and Python's `hexdigest()`:
 * two lower-case hexadecimal characters per byte.
 */
module Hex {

  type uint8 = x: int | 0 <= x < 256

  /** An HMAC-SHA1 digest is always 20 bytes long. */
  type Digest = d: seq<uint8> | |d| == 20 witness seq(20, _ => 0)

  predicate IsLowerHex(ch: char)
  {
    '0' <= ch <= '9' || 'a' <= ch <= 'f'
  }

  function HexChar(n: int): (ch: char)
    requires 0 <= n < 16
    ensures IsLowerHex(ch)
  {
    if n < 10 then ('0' as int + n) as char else ('a' as int + n - 10) as char
  }

  function HexValue(ch: char): (n: int)
    requires IsLowerHex(ch)
    ensures 0 <= n < 16
  {
    if ch <= '9' then ch as int - '0' as int else ch as int - 'a' as int + 10
  }

  /** `hexdigest()` of a byte string. */
  function HexDigest(bytes: seq<uint8>): (h: string)
    ensures |h| == 2 * |bytes|
    ensures forall k :: 0 <= k < |h| ==> IsLowerHex(h[k])
  {
    if bytes == [] then ""
    else [HexChar(bytes[0] / 16), HexChar(bytes[0] % 16)] + HexDigest(bytes[1..])
  }

  /** Reads a hexadecimal text back into bytes, two characters per byte. */
  function HexDecode(h: string): seq<uint8>
    requires |h| % 2 == 0
    requires forall k :: 0 <= k < |h| ==> IsLowerHex(h[k])
  {
    if h == [] then []
    else [HexValue(h[0]) * 16 + HexValue(h[1])] + HexDecode(h[2..])
  }

  /** No information is lost by the hex encoding: it can be decoded back exactly. */
  lemma {:induction false} HexRoundTrip(bytes: seq<uint8>)
    ensures HexDecode(HexDigest(bytes)) == bytes
  {
    if bytes != [] {
      var h := HexDigest(bytes);
      assert h[2..] == HexDigest(bytes[1..]);
      HexRoundTrip(bytes[1..]);
      assert HexValue(h[0]) == bytes[0] / 16;
      assert HexValue(h[1]) == bytes[0] % 16;
      assert bytes == [bytes[0]] + bytes[1..];
    }
  }

  /** Equal hex texts come from equal digests. */
  lemma HexDigestInjective(a: seq<uint8>, b: seq<uint8>)
    requires HexDigest(a) == HexDigest(b)
    ensures a == b
  {
    HexRoundTrip(a);
    HexRoundTrip(b);
  }
}
