/** Webhook signature checking. HMAC-SHA256 (RFC 2104) with base64 output
    (section 4 of RFC 4648) is left uninterpreted: a `Signer` maps a secret and
    a body to the digest text. Both the digest and the received header are
    turned into their UTF-8 bytes and compared with `timingSafeEqual`, which
    throws a `RangeError` on inputs of different lengths. */
module Hmac {
  import opened Wrappers
  import Utf8
  import Platform

  /** The base64 HMAC-SHA256 of a body under a secret. */
  type Signer = (string, string) -> string

  /** `crypto.timingSafeEqual`: `None` stands for the `RangeError` it throws
      when the lengths differ. */
  function TimingSafeEqual(a: seq<Utf8.Byte>, b: seq<Utf8.Byte>): (r: Option<bool>)
    ensures r.None? <==> |a| != |b|
    ensures r == Some(true) <==> a == b
  {
    if |a| != |b| then None else Some(a == b)
  }

  /** `timingSafeEqual(Buffer.from(digest), Buffer.from(header))`. */
  function DigestMatches(header: string, digest: string): Option<bool> {
    TimingSafeEqual(Utf8.Encode(digest), Utf8.Encode(header))
  }

  /** The byte comparison accepts exactly the header that is the digest, and
      throws exactly when their UTF-8 lengths differ. */
  lemma DigestMatchesIff(header: string, digest: string)
    ensures DigestMatches(header, digest) == Some(true) <==> header == digest
    ensures DigestMatches(header, digest).None? <==> |Utf8.Encode(header)| != |Utf8.Encode(digest)|
  {
    if Utf8.Encode(digest) == Utf8.Encode(header) {
      Utf8.EncodeInjective(digest, header);
    }
  }

  /** How `verifyShopifyHmac` ends: it returns, it throws an `Error` with a
      message, or `timingSafeEqual` throws. */
  datatype Verdict = Verified | Rejected(message: string) | LengthMismatch

  const MissingHeader := "Could not verify webhook: Missing x-shopify-hmac-sha256 header."
  const MissingSecret := "SHOPIFY_API_SECRET is not configured. Cannot verify webhook."
  const InvalidSignature := "Could not verify webhook: Invalid HMAC signature."

  /** `verifyShopifyHmac(headers, rawBody)` with the header value and
      SHOPIFY_API_SECRET: the header is checked first, then the secret, then the
      digest; it succeeds exactly when the header is the body's signature. */
  function VerifyShopifyHmac(header: Option<string>, secret: Option<string>, body: string, sign: Signer)
    : (v: Verdict)
    ensures v.Verified? <==>
      Platform.Truthy(header) && Platform.Truthy(secret) && header.value == sign(secret.value, body)
    ensures !Platform.Truthy(header) ==> v == Rejected(MissingHeader)
    ensures Platform.Truthy(header) && !Platform.Truthy(secret) ==> v == Rejected(MissingSecret)
    ensures v.LengthMismatch? <==>
      Platform.Truthy(header) && Platform.Truthy(secret)
      && |Utf8.Encode(header.value)| != |Utf8.Encode(sign(secret.value, body))|
    ensures v.Rejected? && Platform.Truthy(header) && Platform.Truthy(secret) ==> v.message == InvalidSignature
  {
    if !Platform.Truthy(header) then Rejected(MissingHeader)
    else if !Platform.Truthy(secret) then Rejected(MissingSecret)
    else
      var digest := sign(secret.value, body);
      DigestMatchesIff(header.value, digest);
      match DigestMatches(header.value, digest)
      case None => LengthMismatch
      case Some(true) => Verified
      case Some(false) => Rejected(InvalidSignature)
  }

  /** A request signed with the configured secret is always accepted. */
  lemma SignedBodyVerifies(secret: string, body: string, sign: Signer)
    requires secret != "" && sign(secret, body) != ""
    ensures VerifyShopifyHmac(Some(sign(secret, body)), Some(secret), body, sign) == Verified
  {
  }

  /** A non-empty header of the digest's byte length that is not the digest is
      refused as an invalid signature. */
  lemma ForgedHeaderRejected(header: string, secret: string, body: string, sign: Signer)
    requires header != "" && secret != "" && header != sign(secret, body)
    requires |Utf8.Encode(header)| == |Utf8.Encode(sign(secret, body))|
    ensures VerifyShopifyHmac(Some(header), Some(secret), body, sign) == Rejected(InvalidSignature)
  {
  }

  /** The helper reads SHOPIFY_API_SECRET while the uninstall webhook reads
      SHOPIFY_WEBHOOK_SECRET: with only the webhook secret set, the helper
      refuses every request. */
  lemma HelperIgnoresWebhookSecret(cfg: Platform.Config, header: string, body: string, sign: Signer)
    requires header != "" && !Platform.Truthy(cfg.apiSecret) && Platform.Truthy(cfg.webhookSecret)
    ensures VerifyShopifyHmac(Some(header), cfg.apiSecret, body, sign) == Rejected(MissingSecret)
  {
  }
}
