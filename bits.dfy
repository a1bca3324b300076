// Fixed-width arithmetic shared by the replacement-policy models: powers of
// two, the integer part of log2 the constructors compute, bit-field
// extraction on unsigned values, and the CRC rounds both samplers hash with.
module Bits {

  /** The unsigned widths the C++ code stores and wraps around in. */
  newtype u32 = x: int | 0 <= x < 0x1_0000_0000
  newtype u64 = x: int | 0 <= x < 0x1_0000_0000_0000_0000

  /** `n` zero counters, as a freshly allocated `uint32_t` vector holds. */
  function Zeros(n: nat): seq<u32> {
    seq(n, i => 0)
  }

  /** `x + 1` in a 32-bit unsigned variable. */
  function Inc32(x: u32): (r: u32)
    ensures x < 0xFFFF_FFFF ==> r as int == x as int + 1
    ensures x == 0xFFFF_FFFF ==> r == 0
  {
    if x == 0xFFFF_FFFF then 0 else x + 1
  }

  /** `x + 1` in a 64-bit unsigned variable. */
  function Inc64(x: u64): (r: u64)
    ensures x < 0xFFFF_FFFF_FFFF_FFFF ==> r as int == x as int + 1
    ensures x == 0xFFFF_FFFF_FFFF_FFFF ==> r == 0
  {
    if x == 0xFFFF_FFFF_FFFF_FFFF then 0 else x + 1
  }

  /**
   * `a - b` in 64-bit two's-complement arithmetic, read as an unsigned word:
   * below zero it wraps around. Signed and unsigned subtraction give the same
   * 64 bits, so the same low 32 bits once stored into an `int`.
   */
  function Sub64(a: u64, b: u64): (r: u64)
    ensures a >= b ==> r as int == a as int - b as int
    ensures a < b ==> r as int == a as int - b as int + 0x1_0000_0000_0000_0000
  {
    if a >= b then a - b else (a as int - b as int + 0x1_0000_0000_0000_0000) as u64
  }

  /** An unsigned 64-bit value stored into a 32-bit `int`: its low 32 bits, in two's complement. */
  function ToInt32(x: u64): (r: int)
    ensures -0x8000_0000 <= r < 0x8000_0000
    ensures (r - x as int) % 0x1_0000_0000 == 0
  {
    var low := (x as int) % 0x1_0000_0000;
    if low >= 0x8000_0000 then low - 0x1_0000_0000 else low
  }

  function Min(a: int, b: int): int { if a <= b then a else b }
  function Max(a: int, b: int): int { if a >= b then a else b }

  /** `x % n` of an unsigned 64-bit value by a positive table size. */
  function Mod(x: bv64, n: nat): (r: nat)
    requires n >= 1
    ensures r < n
  {
    (x as int) % n
  }

  /** An unsigned 64-bit value as a number. */
  function ToNat(x: bv64): nat {
    x as int
  }

  /** `(counter + 1) % timer_size` in 64-bit arithmetic. */
  function Tick(c: u64, timerSize: nat): (r: u64)
    requires 1 <= timerSize < 0x8000_0000
    ensures (r as int) < timerSize
  {
    ((Inc64(c) as int) % timerSize) as u64
  }

  /** The 8-bit timestamp a 64-bit counter is truncated to. */
  function Ts8(c: u64): bv8 {
    ((c as int) % 256) as bv8
  }

  function Pow2(n: nat): (r: nat)
    ensures r >= 1
  {
    if n == 0 then 1 else 2 * Pow2(n - 1)
  }

  lemma {:induction false} Pow2Add(a: nat, b: nat)
    ensures Pow2(a + b) == Pow2(a) * Pow2(b)
  {
    if a > 0 {
      Pow2Add(a - 1, b);
    }
  }

  lemma {:induction false} Pow2Monotone(a: nat, b: nat)
    requires a <= b
    ensures Pow2(a) <= Pow2(b)
  {
    if a < b {
      Pow2Monotone(a, b - 1);
    }
  }

  /** A shift count of at most 30 keeps `1 << k` well inside a 32-bit `int`. */
  lemma Pow2Small(k: nat)
    requires k <= 30
    ensures Pow2(k) <= 0x4000_0000
  {
    Pow2Monotone(k, 30);
    Pow2Ten();
    Pow2Add(10, 10);
    Pow2Add(20, 10);
  }

  lemma Pow2Ten()
    ensures Pow2(10) == 1024
  {
    assert Pow2(1) == 2 && Pow2(2) == 4 && Pow2(3) == 8 && Pow2(4) == 16 && Pow2(5) == 32;
    assert Pow2(6) == 64 && Pow2(7) == 128 && Pow2(8) == 256 && Pow2(9) == 512;
  }

  /** `(int) std::log2(n)` for a positive integer: the largest `r` with `2^r <= n`. */
  function Log2(n: nat): (r: nat)
    requires n >= 1
    ensures Pow2(r) <= n < Pow2(r + 1)
  {
    if n == 1 then 0 else 1 + Log2(n / 2)
  }

  lemma {:induction false} Log2OfPow2(k: nat)
    ensures Log2(Pow2(k)) == k
  {
    if k > 0 {
      assert Pow2(k) / 2 == Pow2(k - 1);
      Log2OfPow2(k - 1);
    }
  }

  /** The `l`-bit field of `x` starting at bit `i`: `(x >> i) & ((1 << l) - 1)`. */
  function Field(x: nat, i: nat, l: nat): (r: nat)
    ensures r < Pow2(l)
  {
    (x / Pow2(i)) % Pow2(l)
  }

  // ---------------------------------------------------------------------
  // The CRC both samplers hash addresses and PCs with.

  const CrcPolynomial: bv64 := 3988292384

  /** One round: shift right, XOR in the polynomial when the bit shifted out was set. */
  function CrcRound(v: bv64): bv64 {
    if v & 1 == 1 then (v >> 1) ^ CrcPolynomial else v >> 1
  }

  /** `n` rounds applied to `v`. */
  function CrcRounds(v: bv64, n: nat): bv64 {
    if n == 0 then v else CrcRound(CrcRounds(v, n - 1))
  }

  /** `CRC` of the Hawkeye sampler: 32 rounds. */
  function Crc(v: bv64): bv64 {
    CrcRounds(v, 32)
  }

  /** `CRC_HASH` of the Mockingjay sampler: 3 rounds. */
  function CrcHash(v: bv64): bv64 {
    CrcRounds(v, 3)
  }

  /**
   * One round is linear over XOR: the shift distributes over XOR, and the
   * polynomial is XOR-ed in for `a ^ b` exactly when it is XOR-ed in for
   * one of `a` and `b`, or cancels when it is for both.
   */
  lemma CrcRoundLinear(a: bv64, b: bv64)
    ensures CrcRound(a ^ b) == CrcRound(a) ^ CrcRound(b)
  {
    ShiftXor(a, b);
    LowBitXor(a, b);
    XorRegroup(a >> 1, b >> 1, CrcPolynomial);
  }

  lemma ShiftXor(a: bv64, b: bv64)
    ensures (a ^ b) >> 1 == (a >> 1) ^ (b >> 1)
  {
  }

  lemma LowBitXor(a: bv64, b: bv64)
    ensures (a ^ b) & 1 == 1 <==> ((a & 1 == 1) != (b & 1 == 1))
  {
  }

  lemma XorRegroup(x: bv64, y: bv64, p: bv64)
    ensures (x ^ p) ^ (y ^ p) == x ^ y
    ensures (x ^ y) ^ p == (x ^ p) ^ y == x ^ (y ^ p)
  {
  }
}
