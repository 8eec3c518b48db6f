/** The hashing and encoding libraries the payment code calls, taken as given functions:
    nothing here computes SHA-256, HMAC, base64 or JSON text. What a proof needs of them is
    stated as a predicate and required explicitly by the lemma that uses it. */
module Primitives {
  import opened JsValues

  datatype Crypto = Crypto(
    /** `crypto.createHash('sha256').update(s).digest('hex')` */
    sha256Hex: string -> string,
    /** `crypto.createHmac('sha256', key).update(s).digest('hex')` (HMAC of RFC 2104) */
    hmacSha256Hex: (string, string) -> string,
    /** `Buffer.from(s).toString('base64')` */
    base64: string -> string,
    /** `JSON.stringify(j)` */
    stringify: Json -> string)

  predicate IsLowerHex(s: string) {
    forall i | 0 <= i < |s| :: '0' <= s[i] <= '9' || 'a' <= s[i] <= 'f'
  }

  /** A hex digest is written with lower-case hexadecimal digits only. */
  ghost predicate HexDigests(c: Crypto) {
    forall s :: IsLowerHex(c.sha256Hex(s))
  }

  /** The ideal-MAC assumption: two HMAC values agree only for the same key and message. */
  ghost predicate HmacInjective(c: Crypto) {
    forall k1, m1, k2, m2 :: c.hmacSha256Hex(k1, m1) == c.hmacSha256Hex(k2, m2) ==> k1 == k2 && m1 == m2
  }

  /** Different JSON values serialise to different texts. */
  ghost predicate StringifyInjective(c: Crypto) {
    forall a, b :: c.stringify(a) == c.stringify(b) ==> a == b
  }
}
