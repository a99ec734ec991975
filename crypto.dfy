/** SHA-256 (FIPS 180-4) and HMAC-SHA256 (RFC 2104) as the library calls
    `crypto/sha256` and `crypto/hmac` provide them. Their bit-level workings
    are not modelled: they are any functions that map their inputs to a
    32-byte digest, and every statement proved here holds for all such
    functions. */
module Crypto {
  import opened GoStrings

  /** A SHA-256 output: 32 bytes. */
  type Digest = d: GoString | |d| == 32 witness seq(32, _ => '\0')

  /** `sha256` hashes a message; `hmac` keys a hash with its first
      argument and hashes its second. */
  datatype Primitives = Primitives(sha256: GoString -> Digest, hmac: (GoString, GoString) -> Digest)
}
