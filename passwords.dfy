/**
 * The password hasher (bcrypt with cost 10), as a parameter of the model:
 * `hash(plain, salt)` and `compare(plain, digest)`. What the model relies on
 * is stated as predicates over the pair and passed as preconditions.
 */
module Passwords {

  datatype Hasher = Hasher(hash: (string, string) -> string, compare: (string, string) -> bool)

  /** The bcrypt cost factor used at signup. */
  const CostFactor := 10

  /** A digest always compares equal to the password it was made from, whatever the salt. */
  ghost predicate Sound(h: Hasher) {
    forall plain, salt :: h.compare(plain, h.hash(plain, salt))
  }

  /** A digest is never the plain password itself. */
  ghost predicate Hiding(h: Hasher) {
    forall plain, salt :: h.hash(plain, salt) != plain
  }

  /** The two assumptions can hold together: some hasher has both properties. */
  lemma SoundHidingHasherExists()
    ensures exists h :: Sound(h) && Hiding(h)
  {
    var h := Hasher((p: string, s: string) => "$2b$" + p, (p: string, d: string) => d == "$2b$" + p);
    forall plain: string, salt: string ensures h.hash(plain, salt) != plain {
      assert |h.hash(plain, salt)| == |plain| + 4;
    }
    assert Sound(h) && Hiding(h);
  }
}
