/**
 * The password hashing service the credential directory delegates to
 * (Argon2id in the original). Its internals are not modelled: the service
 * is a pair of functions whose only properties are the ones stated below.
 */
module Argon2 {

  /** Random salt drawn by the hasher on every call; passed in explicitly here. */
  type Salt = seq<bv8>

  /**
   * `hash(password, salt)` yields the self-describing encoded hash;
   * `verify(encoded, password)` recomputes it and compares.
   */
  datatype Hasher = Hasher(hash: (string, Salt) -> string, verify: (string, string) -> bool)
  {
    /** A freshly derived hash verifies against the password it was derived from. */
    ghost predicate Sound() {
      forall password: string, salt: Salt :: verify(hash(password, salt), password)
    }

    /** A derived hash verifies against no password other than its own. */
    ghost predicate Exact() {
      forall password: string, salt: Salt, other: string ::
        verify(hash(password, salt), other) ==> other == password
    }
  }

  /** The identity hasher: the two assumptions above can be met together. */
  function Plain(): (h: Hasher)
    ensures h.Sound() && h.Exact()
  {
    Hasher((password: string, salt: Salt) => password, (encoded: string, password: string) => encoded == password)
  }
}
