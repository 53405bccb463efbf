/** A large invariant is easier on the verifier as a name than as its definition. A sealed
    predicate holds its definition behind a quantifier over seals, and the verifier looks
    behind it only in proofs that mention `Unsealed` with that predicate's seal. */
module Sealing {

  datatype Seal = CacheSeal | SearchSeal | ProtocolSeal | ClusterSeal | CompactionSeal | ValueSeal

  ghost predicate Unsealed(seal: Seal) {
    true
  }
}
