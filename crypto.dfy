/** The password hasher and the token signer, which the handlers call as
    libraries. They are parameters of the model; what one would expect of them
    together is stated as explicit assumptions, used only where named. */
module Crypto {
  import opened Data

  /** `bcrypt.hash(password, salt)`. */
  type Hasher = (string, string) -> string

  /** `bcrypt.compare(password, storedHash)`. */
  type Comparer = (string, string) -> bool

  /** `jwt.sign(claims, secret)`; None when it throws (for instance without a secret). */
  type Signer = (Claims, Option<string>) -> Option<string>

  /** `jwt.verify(token, secret)`; false when it throws. */
  type Verifier = (string, Option<string>) -> bool

  /** Assumption: a password compares equal to the hash it was stored as. */
  ghost predicate CompareAcceptsHash(hash: Hasher, compare: Comparer)
  {
    forall password, salt :: compare(password, hash(password, salt))
  }

  /** Assumption: every token the signer issues under `secret` is non-empty,
      contains no space, and verifies under the same secret. */
  ghost predicate VerifyAcceptsSigned(sign: Signer, verify: Verifier, secret: Option<string>)
  {
    forall c: Claims :: sign(c, secret).Some? ==>
      var t := sign(c, secret).value; t != "" && ' ' !in t && verify(t, secret)
  }
}
