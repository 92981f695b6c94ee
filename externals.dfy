/** Library functions the signers call but whose definitions are outside
    this model: digests, encodings, percent-escaping and the header
    canonicaliser. They are passed around as a record of functions, so
    every property proved holds whatever these functions compute. */
module Externals {
  import opened Base

  datatype Primitives = Primitives(
    /** HMAC-SHA256 of `data` under `key`, as a binary string. */
    hmacSha256: (string, string) -> string,
    /** HMAC-SHA1 of `data` under `key`, as a binary string. */
    hmacSha1: (string, string) -> string,
    /** SHA-256 of a string, as a binary string. */
    sha256: string -> string,
    /** Hexadecimal encoding of a binary string. */
    hex: string -> string,
    /** Base64 encoding of a binary string. */
    base64: string -> string,
    /** `querystring.escape`: percent-encoding of one key or value. */
    escape: string -> string,
    /** `common.cannonicalizeHeaders(headers, false, true)`. */
    canonicalizeHeaders: Dict<Val> -> string
  )

  // Heap-independent entry points to the primitives.

  function HmacSha256(p: Primitives, key: string, data: string): string { p.hmacSha256(key, data) }
  function HmacSha1(p: Primitives, key: string, data: string): string { p.hmacSha1(key, data) }
  function Sha256(p: Primitives, data: string): string { p.sha256(data) }
  function Hex(p: Primitives, data: string): string { p.hex(data) }
  function Base64(p: Primitives, data: string): string { p.base64(data) }
  function Escape(p: Primitives, s: string): string { p.escape(s) }
  function CanonicalHeaders(p: Primitives, h: Dict<Val>): string { p.canonicalizeHeaders(h) }

  /** `querystring.stringify(obj)`: each entry as `key=value` with both
      sides escaped, in the object's key order, joined by `&`. */
  function QueryString(d: Dict<Val>, p: Primitives): string {
    Join(seq(|d|, i requires 0 <= i < |d| => Escape(p, d[i].0) + "=" + Escape(p, JoinText(d[i].1))), "&")
  }
}
