/**
 * The argon2 password hash, as an ideal one-way function.
 *
 * A stored password is either the plaintext a caller assigned, or a digest of
 * what the field held when it was hashed, under a salt drawn by the library.
 * The digest keeps its preimage only so that verification can be stated; no
 * other member of the model looks inside it.
 */
module Argon2 {
  import opened Wrappers

  /** The random salt argon2 embeds in each digest. */
  type Salt = nat

  datatype Secret = Plain(text: string) | Hashed(salt: Salt, of: Secret)

  datatype HashError = MalformedHash

  /** `argon2.hash`: randomized by the salt. */
  function Hash(s: Secret, salt: Salt): (h: Secret)
    ensures h.Hashed?
  {
    Hashed(salt, s)
  }

  /**
   * `argon2.verify(stored, candidate)`: a stored value that is not a digest
   * makes the library throw; a digest matches exactly the plaintext it was made from.
   */
  function Verify(stored: Secret, candidate: string): (r: Result<bool, HashError>)
    ensures r.Failure? <==> stored.Plain?
  {
    match stored
    case Plain(_) => Failure(MalformedHash)
    case Hashed(_, preimage) => Success(preimage == Plain(candidate))
  }

  /** A digest of a plaintext verifies that plaintext and nothing else, whatever the salt. */
  lemma VerifyHashOfPlain(p: string, salt: Salt, candidate: string)
    ensures Verify(Hash(Plain(p), salt), candidate) == Success(candidate == p)
  {
  }
}
