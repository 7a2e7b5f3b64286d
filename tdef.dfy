/** Byte swapping of include/common/tdef.h. */
module Tdef {

  /** Byte `i` (0 = least significant) of a 32-bit word. */
  function ByteOf(v: bv32, i: nat): (b: bv32)
    requires i < 4
    ensures b < 0x100
  {
    if i == 0 then v & 0xFF
    else if i == 1 then (v >> 8) & 0xFF
    else if i == 2 then (v >> 16) & 0xFF
    else (v >> 24) & 0xFF
  }

  /** The word whose bytes, least significant first, are `b0 b1 b2 b3`. */
  function FromBytes(b0: bv32, b1: bv32, b2: bv32, b3: bv32): bv32
    requires b0 < 0x100 && b1 < 0x100 && b2 < 0x100 && b3 < 0x100
  {
    b0 | (b1 << 8) | (b2 << 16) | (b3 << 24)
  }

  /** What `__builtin_bswap32` computes: the same bytes in the opposite order. */
  function Bswap32(v: bv32): bv32 {
    FromBytes(ByteOf(v, 3), ByteOf(v, 2), ByteOf(v, 1), ByteOf(v, 0))
  }

  /** `swap_endian_uint32`, the shift-and-mask path taken without the builtin. */
  function SwapEndianU32(v: bv32): (r: bv32)
    ensures ByteOf(r, 0) == ByteOf(v, 3) && ByteOf(r, 1) == ByteOf(v, 2)
    ensures ByteOf(r, 2) == ByteOf(v, 1) && ByteOf(r, 3) == ByteOf(v, 0)
  {
    ((v >> 24) & 0x0000_00FF) |
    ((v >> 8)  & 0x0000_FF00) |
    ((v << 8)  & 0x00FF_0000) |
    ((v << 24) & 0xFF00_0000)
  }

  /** Output byte i is input byte 3 - i. */
  lemma SwapReversesBytes(v: bv32, i: nat)
    requires i < 4
    ensures ByteOf(SwapEndianU32(v), i) == ByteOf(v, 3 - i)
  {
  }

  /** The builtin path and the shift-and-mask path agree on every input. */
  lemma BuiltinAgreesWithShifts(v: bv32)
    ensures Bswap32(v) == SwapEndianU32(v)
  {
  }

  /** Swapping twice gives back the original word. */
  lemma SwapInvolution(v: bv32)
    ensures SwapEndianU32(SwapEndianU32(v)) == v
  {
  }

  lemma SwapExample()
    ensures SwapEndianU32(0x0123_4567) == 0x6745_2301
  {
  }

  /** The `int32_t` reading of 32 raw bits (two's complement). */
  function AsInt32(v: bv32): int {
    if v < 0x8000_0000 then v as int else v as int - 0x1_0000_0000
  }

  /** `swap_endian_int32`. An `int32_t` is carried as its two's-complement bits:
      the casts to and from `uint32_t` reinterpret those bits and change none of them. */
  function SwapEndianI32(x: bv32): (r: bv32)
    ensures AsInt32(r) < 0 <==> ByteOf(x, 0) >= 0x80
    ensures ByteOf(r, 3) == ByteOf(x, 0)
    ensures forall i | 0 <= i < 4 :: ByteOf(r, i) == ByteOf(x, 3 - i)
  {
    SwapEndianU32(x)
  }

  lemma SwapI32Involution(x: bv32)
    ensures SwapEndianI32(SwapEndianI32(x)) == x
  {
    SwapInvolution(x);
  }
}
