/** Thin volume IDs: which are sandboxes', and how they are drawn. */
module Thin {
  const MAX_THIN_ID := 0xFF_FFFF

  /** Stands for a device whose table is not a single thin volume's. */
  const NO_THIN := -1

  /** Volumes from the pool's first sandbox ID on are disposable; base volumes are
      below. */
  predicate IsSandboxThin(first: int, id: int) {
    first <= id <= MAX_THIN_ID
  }

  /** The ID a random number gives. */
  function Drawn(first: int, draw: nat): (id: int)
    requires 0 < first <= MAX_THIN_ID
    ensures IsSandboxThin(first, id)
  {
    first + draw % (MAX_THIN_ID - first + 1)
  }

  lemma SmallerThanModulus(a: nat, m: nat)
    requires a < m
    ensures a % m == a
  {
  }

  /** Every sandbox's ID can be drawn. */
  lemma DrawsEvery(first: int, id: int)
    requires 0 < first <= MAX_THIN_ID && IsSandboxThin(first, id)
    ensures Drawn(first, id - first) == id
  {
    SmallerThanModulus(id - first, MAX_THIN_ID - first + 1);
  }
}
