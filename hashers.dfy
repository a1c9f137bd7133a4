/**
 * The salted one-way password hash behind `make_password` / `check_password`.
 * The real algorithms (Argon2, PBKDF2) are not modelled: a digest is a record
 * of the salt and the secret it was made from, and `CheckPassword` is the only
 * observer the rest of the model uses.
 */
module Hashers {

  datatype PasswordHash = PasswordHash(salt: nat, secret: string)

  /** `make_password(raw)` with the random salt `salt`. */
  function MakePassword(raw: string, salt: nat): PasswordHash {
    PasswordHash(salt, raw)
  }

  /** `check_password(raw, encoded)`. */
  predicate CheckPassword(raw: string, encoded: PasswordHash) {
    encoded.secret == raw
  }

  /** A hash accepts the secret it was made from, whatever the salt, and
      rejects every other secret. */
  lemma CheckMatchesOnlyOwnSecret(raw: string, other: string, salt: nat)
    ensures CheckPassword(raw, MakePassword(raw, salt))
    ensures other != raw ==> !CheckPassword(other, MakePassword(raw, salt))
  {
  }
}
