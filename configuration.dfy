/** The configuration a caller hands to the factory, and the hasher it names. */
module Configurations {

  /** A hashing implementation (`Hasher`; the library's default is
      `MurMur3x64x128Hasher`). Only its identity matters here: it declares no
      equality of its own, so two hashers are equal exactly when they are the
      same object. */
  class Hasher {
    constructor () {}
  }

  /** `Configuration(version, hasher)`, a data class: two configurations are
      equal exactly when their versions are equal and their hashers are equal. */
  datatype Configuration = Configuration(version: int, hasher: Hasher)
}
