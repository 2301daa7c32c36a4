/**
 * A cell of the symbolic store: either a known value or unknown.
 * The C code encodes "unknown" as the sentinel -1 in an `int`
 * (src/em_6502.c:40-51); here it is a constructor of its own.
 */
module TriState {
  datatype Tri = Unknown | Known(val: int)

  /** A register cell: unknown, or a known value in 0..255. */
  predicate KnownByte(t: Tri) {
    t.Known? ==> 0 <= t.val < 256
  }

  /** A flag cell: unknown, or a known value in {0, 1}. */
  predicate KnownBit(t: Tri) {
    t.Known? ==> t.val == 0 || t.val == 1
  }

  /** A known cell whose value differs from an observed one. */
  predicate Contradicts(t: Tri, observed: int) {
    t.Known? && t.val != observed
  }
}
