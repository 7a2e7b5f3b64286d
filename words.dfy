/** Fixed-width integers of the C sources, modelled on unbounded ints.
    A `u32` holds the raw 32 bits of a `uint32_t`/`int32_t` slot; the signed
    view is the two's-complement reading of those bits. */
module Words {

  const TWO32: int := 0x1_0000_0000
  const INT32_MIN: int := -0x8000_0000
  const INT32_MAX: int := 0x7FFF_FFFF

  type u32 = x: int | 0 <= x < 0x1_0000_0000

  /** Reduction modulo 2^32: what storing an integer into 32 bits keeps. */
  function Wrap(x: int): (r: u32)
    ensures (r - x) % TWO32 == 0
    ensures 0 <= x < TWO32 ==> r == x
  {
    x % TWO32
  }

  /** The `int32_t` reading of 32 raw bits. */
  function ToSigned(b: u32): (r: int)
    ensures INT32_MIN <= r <= INT32_MAX
    ensures Wrap(r) == b
  {
    if b < 0x8000_0000 then b else b - TWO32
  }

  /** The bits a two's-complement store of `i` leaves behind. */
  function FromSigned(i: int): (r: u32)
    ensures INT32_MIN <= i <= INT32_MAX ==> ToSigned(r) == i
  {
    Wrap(i)
  }

  /** C's `/` on integers truncates toward zero (Dafny's `/` is Euclidean). */
  function CDiv(a: int, b: int): (q: int)
    requires b != 0
    ensures Abs(q) * Abs(b) <= Abs(a) < (Abs(q) + 1) * Abs(b)
    ensures (a >= 0) == (b >= 0) ==> q >= 0
    ensures (a >= 0) != (b >= 0) ==> q <= 0
  {
    var q := Abs(a) / Abs(b);
    if (a >= 0) == (b >= 0) then q else -q
  }

  /** C's `%`: the remainder that goes with truncating division; its sign follows `a`. */
  function CRem(a: int, b: int): (r: int)
    requires b != 0
    ensures a == CDiv(a, b) * b + r
    ensures 0 <= Abs(r) < Abs(b)
    ensures a >= 0 ==> r >= 0
    ensures a <= 0 ==> r <= 0
  {
    var r := Abs(a) % Abs(b);
    if a >= 0 then r else -r
  }

  function Abs(x: int): nat {
    if x < 0 then -x else x
  }
}
