/** The password-hashing library the store calls (`bcrypt.hash(p, 10)` and
    `bcrypt.compare(p, h)`), modelled as an ideal salted one-way function: a digest records the
    cost factor, the salt drawn for it and what it was computed from, and nothing but `Compare`
    looks at the last part. */
module Bcrypt {

  /** The cost factor the store passes to every `bcrypt.hash` call. */
  const SaltRounds: nat := 10

  datatype Digest = Digest(cost: nat, salt: nat, secret: string)

  /** `bcrypt.hash(plain, SaltRounds)` with the random salt `salt`. */
  function Hash(plain: string, salt: nat): (d: Digest)
    ensures d.cost == SaltRounds && d.salt == salt
  {
    Digest(SaltRounds, salt, plain)
  }

  /** `bcrypt.compare(plain, digest)`: recomputes with the digest's own salt and cost. */
  predicate Compare(plain: string, digest: Digest) {
    Hash(plain, digest.salt) == digest.(cost := SaltRounds)
  }

  /** A digest accepts the password it was made from and rejects every other one, whatever
      the salt. */
  lemma CompareHash(plain: string, other: string, salt: nat)
    ensures Compare(plain, Hash(plain, salt))
    ensures other != plain ==> !Compare(other, Hash(plain, salt))
  {
  }
}
