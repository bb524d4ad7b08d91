/**
 * Types shared by the key directory and the authentication gate.
 * Public keys are opaque: PEM/x509 parsing and RSA signature checking are
 * foreign code, so they enter the model as function-typed parameters.
 */
module Keys {

  datatype Option<T> = None | Some(value: T)

  /** A parsed RSA public key (Go's *rsa.PublicKey without the nil case). */
  type PublicKey(==)

  /**
   * stringToPublicKey: parses a PEM string; None stands for a nil result.
   * The source's two panics (no PEM block, a non-RSA key) are folded into
   * this function's answer as well.
   */
  type KeyParser = string -> Option<PublicKey>

  /**
   * RSASSA-PKCS1-v1_5 with SHA-1 (section 8.2 of RFC 8017) over the raw body,
   * the signature given as a hex string.
   */
  type Verifier = (PublicKey, string, string) -> bool

  /** A publisher identity as the key directory stores it. */
  datatype APIToken = APIToken(mail: string, publicKey: string, admin: bool)

  /** Go's `error`: nil is None. */
  datatype BackendError = DuplicateEntry(mail: string)
}
