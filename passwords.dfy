/** The password hasher (bcryptjs), seen from outside. */
module Passwords {

  /** `hash(plaintext, salt)` is `bcrypt.hash` with the salt it draws at
      random; `compare(plaintext, digest)` is `bcrypt.compare`. */
  datatype Hasher = Hasher(hash: (string, nat) -> string, compare: (string, string) -> bool)

  /** A password always matches its own digest, whatever the salt. */
  ghost predicate Sound(h: Hasher) {
    forall p: string, salt: nat :: h.compare(p, h.hash(p, salt))
  }
}
