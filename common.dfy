/** Shared vocabulary: bytes, optional values, results and the errors the stores raise. */
module Common {

  /** One element of a Uint8Array. */
  type byte = x: int | 0 <= x < 256

  type Bytes = seq<byte>

  /** A value or JavaScript's null/undefined. */
  datatype Option<+T> = None | Some(value: T)

  /** A settled promise: either its value or the error it was rejected with. */
  datatype Result<+T> = Success(value: T) | Failure(error: Error)

  /** The kinds of error the core raises or passes through. */
  datatype Error =
    | NotFound        // NotFoundError ("object not found in storage")
    | DigestMismatch  // "digest of encoded data did not match given digest"
    | DecodeFailed    // the object's decode threw on the cached bytes
    | OpenFailed      // unwrapping or decrypting the remote payload threw
    | NoClearKeys     // the backing store has no clearKeys method

  /** String.prototype.startsWith. */
  predicate StartsWith(s: string, prefix: string)
  {
    |prefix| <= |s| && s[..|prefix|] == prefix
  }
}
