/** Small shared vocabulary: optional values, outcomes with an error, bytes. */
module Common {

  /** A value that may be absent: JavaScript's `null` / `undefined`. */
  datatype Option<+T> = None | Some(value: T)

  /** The outcome of an operation that may throw or revert with an error of type E. */
  datatype Result<+T, +E> = Ok(value: T) | Err(error: E)

  /** One element of a `Uint8Array`. */
  newtype byte = x: int | 0 <= x < 256

  /** An ethers or EIP-1193 object (a provider, a signer, an instance), known only by identity. */
  type ObjectRef = string
}
