/**
 * The part of the bcrypt package the administrative API relies on. Hash parsing
 * and the constant-time comparison are foreign cryptography: the model takes them
 * as uninterpreted functions supplied by the caller.
 */
module Bcrypt {
  import opened Common

  /** A bcrypt hash as raw bytes. */
  type Hash = seq<byte>

  /** bcrypt.DefaultCost: the least cost the API accepts. */
  const DefaultCost: int := 10

  /**
   * `cost` is bcrypt.Cost: the work factor embedded in a hash, or None when the
   * hash cannot be parsed. `compare` is bcrypt.CompareHashAndPassword: true when
   * the plaintext matches the hash.
   */
  datatype Hasher = Hasher(cost: Hash -> Option<int>, compare: (Hash, string) -> bool)
}
