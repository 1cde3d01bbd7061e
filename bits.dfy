/**
 * Unsigned machine words and the integer conventions of C++ that the
 * decoder relies on: masked bit-fields, little-endian words read from a
 * byte stream, 64-bit wrap-around and division truncating toward zero.
 */
module Bits {

  /** A right-justified bit-field of a 32-bit word: `(w & mask) >> shift`. */
  datatype Mask = Mask(mask: bv32, shift: bv32)

  function Apply(m: Mask, w: bv32): bv32
    requires m.shift <= 32
  {
    (w & m.mask) >> m.shift
  }

  /** Bit `k` of `w`, as 0 or 1. */
  function Bit(w: bv32, k: bv32): (b: int)
    requires k < 32
    ensures b == 0 || b == 1
  {
    if (w >> k) & 1 == 0 then 0 else 1
  }

  /** The unsigned field of `width` bits starting at bit `lo`. */
  function Field(w: bv32, lo: bv32, width: bv32): int
    requires lo < 32 && width < 32
  {
    ((w >> lo) & ((1 << width) - 1)) as int
  }

  /** The little-endian 32-bit word whose first byte is `d[p]` (what `fread` of a `uint32_t` yields on x86). */
  function WordAt(d: seq<bv8>, p: nat): bv32
    requires p + 4 <= |d|
  {
    (d[p] as bv32) | ((d[p + 1] as bv32) << 8) | ((d[p + 2] as bv32) << 16) | ((d[p + 3] as bv32) << 24)
  }

  /** `n` consecutive little-endian words starting at byte `p`. */
  function WordsAt(d: seq<bv8>, p: nat, n: nat): (ws: seq<bv32>)
    requires p + 4 * n <= |d|
    ensures |ws| == n
    ensures forall i :: 0 <= i < n ==> ws[i] == WordAt(d, p + 4 * i)
  {
    seq(n, i requires 0 <= i < n => WordAt(d, p + 4 * i))
  }

  /** The little-endian 16-bit sample whose first byte is `d[p]`. */
  function HalfAt(d: seq<bv8>, p: nat): bv16
    requires p + 2 <= |d|
  {
    (d[p] as bv16) | ((d[p + 1] as bv16) << 8)
  }

  /** `n` consecutive little-endian 16-bit samples starting at byte `p`. */
  function HalvesAt(d: seq<bv8>, p: nat, n: nat): (hs: seq<bv16>)
    requires p + 2 * n <= |d|
    ensures |hs| == n
    ensures forall i :: 0 <= i < n ==> hs[i] == HalfAt(d, p + 2 * i)
  {
    seq(n, i requires 0 <= i < n => HalfAt(d, p + 2 * i))
  }

  const TwoTo32: nat := 0x1_0000_0000
  const TwoTo64: nat := 0x1_0000_0000_0000_0000

  /** The value an `int` takes when converted to, or computed in, `uint64_t`. */
  function Wrap64(x: int): (r: nat)
    ensures r < TwoTo64
    ensures 0 <= x < TwoTo64 ==> r == x
  {
    x % TwoTo64
  }

  /**
   * C++ integer division: the quotient is truncated toward zero, so the
   * remainder takes the sign of the dividend (Dafny's `/` floors instead).
   */
  function TruncDiv(a: int, b: int): (q: int)
    requires b > 0
    ensures a >= 0 ==> 0 <= a - q * b < b
    ensures a < 0 ==> -b < a - q * b <= 0
  {
    if a >= 0 then a / b else -((-a) / b)
  }

  /** Where C++ and Dafny division part ways: -4 / 5 is 0 in C++ and -1 in Dafny. */
  lemma TruncDivDiffersFromFloor()
    ensures TruncDiv(-4, 5) == 0 && -4 / 5 == -1
  {
  }
}
