/**
 * `verifySignature`: the `X-Hub-Signature-256` header must read
 * "sha256=" followed by the hex HMAC-SHA256 of the raw body under the
 * shared secret. The keyed hash is a parameter: its internals are not modelled.
 */
module Signature {
  import opened Wrappers
  import opened Hex

  /** A keyed message authentication code: key, message, digest. */
  type Mac = (string, seq<byte>) -> seq<byte>

  const SignaturePrefix := "sha256="

  /** Accepts exactly a header "sha256=" + h where h decodes to the expected digest. */
  function VerifySignature(secret: string, mac: Mac, body: seq<byte>, signature: string): (ok: bool)
    ensures ok <==> exists h :: signature == SignaturePrefix + h && DecodeString(h) == Success(mac(secret, body))
    ensures !(SignaturePrefix <= signature) ==> !ok
    ensures ok ==> |signature| == |SignaturePrefix| + 2 * |mac(secret, body)|
  {
    if !(SignaturePrefix <= signature) then
      false
    else
      var h := signature[|SignaturePrefix|..];
      assert signature == SignaturePrefix + h;
      match DecodeString(h)
      case Failure(_) => false
      case Success(sig) => sig == mac(secret, body)
  }

  /** A header built the way GitHub builds it is accepted. */
  lemma SignedHeaderAccepted(secret: string, mac: Mac, body: seq<byte>)
    ensures VerifySignature(secret, mac, body, SignaturePrefix + EncodeToString(mac(secret, body)))
  {
    DecodeEncode(mac(secret, body));
  }

  /** A well-formed header carrying any other digest is refused. */
  lemma OtherDigestRejected(secret: string, mac: Mac, body: seq<byte>, digest: seq<byte>)
    requires digest != mac(secret, body)
    ensures !VerifySignature(secret, mac, body, SignaturePrefix + EncodeToString(digest))
  {
    var s := SignaturePrefix + EncodeToString(digest);
    DecodeEncode(digest);
    assert s[|SignaturePrefix|..] == EncodeToString(digest);
  }

  /** A missing header reads as the empty string, which is refused. */
  lemma MissingHeaderRejected(secret: string, mac: Mac, body: seq<byte>)
    ensures !VerifySignature(secret, mac, body, "")
  {
  }

  /** "sha256=invalid" is refused: 'i' is not a hex digit. */
  lemma NonHexRejected(secret: string, mac: Mac, body: seq<byte>)
    ensures !VerifySignature(secret, mac, body, "sha256=invalid")
  {
    assert "sha256=invalid"[|SignaturePrefix|..] == "invalid";
    assert !IsHexDigit("invalid"[0]);
  }
}
