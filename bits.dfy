/** C bit-fields inside a one-byte union.
    A register image is one `uint8_t`; every named bit and every named group
    of a union is a field of that byte: a run of adjacent bits, given by its
    lowest bit and the mask of the bits it covers. The compiler the driver
    targets (GCC for ARM) allocates bit-fields from the least significant bit
    upwards in declaration order, so the first declared member is bit 0.
    Reading a field masks and shifts the byte; assigning a field truncates the
    value to the field's width and leaves every other bit of the byte as it
    was. */
module Bits {

  /** The storage of every register image: C's `uint8_t`. */
  type Byte = bv8

  /** A bit-field of a one-byte union: the bits of `mask`, the lowest of
      which is bit `lo`. */
  datatype Field = Field(lo: bv8, mask: Byte)

  /** The largest value the field can hold, i.e. its mask moved down to
      bit 0. */
  function Max(f: Field): Byte
    requires f.lo < 8
  {
    f.mask >> f.lo
  }

  /** A well-formed bit-field: a non-empty run of adjacent bits inside the
      byte, starting at bit `lo`. */
  predicate Fits(f: Field) {
    f.lo < 8 && f.mask != 0 && Max(f) << f.lo == f.mask && Max(f) & (Max(f) + 1) == 0
  }

  /** Two fields share no bit. */
  predicate Disjoint(f: Field, g: Field) {
    f.mask & g.mask == 0
  }

  /** Reading the bit-field `f` of the byte `b`. */
  function Get(b: Byte, f: Field): Byte
    requires Fits(f)
  {
    (b & f.mask) >> f.lo
  }

  /** Assigning `v` to the bit-field `f` of the byte `b`: `v` is truncated to
      the field's width, the bits outside the field are kept. */
  function Set(b: Byte, f: Field, v: Byte): Byte
    requires Fits(f)
  {
    (b & !f.mask) | ((v << f.lo) & f.mask)
  }
}
