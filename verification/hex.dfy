/**
 * Hexadecimal text as Go's `encoding/hex` reads and writes it: decoding
 * accepts both letter cases, reports the first non-hex character it meets
 * and, only when every character is a hex digit, an odd length.
 */
module Hex {
  import opened Wrappers

  /** One octet. */
  type byte = b: int | 0 <= b < 256

  /** Why `hex.DecodeString` refused its input. */
  datatype HexError = InvalidByte(c: char) | ErrLength

  predicate IsHexDigit(c: char) {
    '0' <= c <= '9' || 'a' <= c <= 'f' || 'A' <= c <= 'F'
  }

  predicate AllHex(s: string) {
    forall i :: 0 <= i < |s| ==> IsHexDigit(s[i])
  }

  function HexValue(c: char): (v: nat)
    requires IsHexDigit(c)
    ensures v < 16
  {
    if '0' <= c <= '9' then (c as int - '0' as int) as nat
    else if 'a' <= c <= 'f' then (c as int - 'a' as int + 10) as nat
    else (c as int - 'A' as int + 10) as nat
  }

  /** The octet written by the two digits `hi`, `lo`. */
  function PairValue(hi: char, lo: char): byte
    requires IsHexDigit(hi) && IsHexDigit(lo)
  {
    16 * HexValue(hi) + HexValue(lo)
  }

  /** `s` has a non-hex character at `k` and none before it. */
  predicate FirstInvalidAt(s: string, k: int) {
    0 <= k < |s| && !IsHexDigit(s[k]) && forall j :: 0 <= j < k ==> IsHexDigit(s[j])
  }

  /** `hex.DecodeString`: two digits per octet, pairs read left to right. */
  function DecodeString(s: string): (r: Result<seq<byte>, HexError>)
    ensures r.Success? <==> |s| % 2 == 0 && AllHex(s)
    ensures r.Success? ==> |r.value| == |s| / 2
    ensures r.Success? ==> forall i :: 0 <= i < |r.value| ==> r.value[i] == PairValue(s[2 * i], s[2 * i + 1])
    ensures r == Failure(ErrLength) <==> |s| % 2 == 1 && AllHex(s)
    ensures r.Failure? && r.error.InvalidByte? ==>
      exists k :: FirstInvalidAt(s, k) && r.error.c == s[k]
    decreases |s|
  {
    if |s| == 0 then Success([])
    else if !IsHexDigit(s[0]) then
      assert FirstInvalidAt(s, 0);
      Failure(InvalidByte(s[0]))
    else if |s| == 1 then Failure(ErrLength)
    else if !IsHexDigit(s[1]) then
      assert FirstInvalidAt(s, 1);
      Failure(InvalidByte(s[1]))
    else
      var rest := DecodeString(s[2..]);
      assert forall i :: 2 <= i < |s| ==> s[i] == s[2..][i - 2];
      match rest
      case Failure(e) =>
        if e.InvalidByte? then
          var k :| FirstInvalidAt(s[2..], k) && e.c == s[2..][k];
          assert FirstInvalidAt(s, k + 2);
          Failure(e)
        else
          Failure(e)
      case Success(t) =>
        Success([PairValue(s[0], s[1])] + t)
  }

  function LowerDigit(v: nat): (c: char)
    requires v < 16
    ensures IsHexDigit(c) && HexValue(c) == v
  {
    "0123456789abcdef"[v]
  }

  /** `hex.EncodeToString`: two lower-case digits per octet. */
  function EncodeToString(b: seq<byte>): (r: string)
    ensures |r| == 2 * |b|
    ensures forall i :: 0 <= i < |r| ==> IsHexDigit(r[i]) && !('A' <= r[i] <= 'F')
  {
    if b == [] then [] else [LowerDigit(b[0] / 16), LowerDigit(b[0] % 16)] + EncodeToString(b[1..])
  }

  /** Decoding an encoding gives the octets back. */
  lemma {:induction false} DecodeEncode(b: seq<byte>)
    ensures DecodeString(EncodeToString(b)) == Success(b)
  {
    if b != [] {
      var s := EncodeToString(b);
      var tail := EncodeToString(b[1..]);
      assert s == [LowerDigit(b[0] / 16), LowerDigit(b[0] % 16)] + tail;
      assert s[2..] == tail;
      DecodeEncode(b[1..]);
      assert PairValue(s[0], s[1]) == b[0];
      assert DecodeString(s) == Success([b[0]] + b[1..]);
      assert [b[0]] + b[1..] == b;
    }
  }
}
