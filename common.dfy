/**
 * Machine-level vocabulary shared by the clock and DMA models:
 * 32-bit unsigned values, C's wrap-around on them, powers of two and Option.
 */
module Common {

  /** C's `u32_t`. */
  type u32 = x: int | 0 <= x < 0x1_0000_0000

  /** The u32 result of an unsigned C expression whose exact value is x (wraps modulo 2^32). */
  function WrapU32(x: int): (r: u32)
    ensures 0 <= x < 0x1_0000_0000 ==> r == x
    ensures -0x1_0000_0000 <= x < 0 ==> r == x + 0x1_0000_0000
  {
    x % 0x1_0000_0000
  }

  /** 2^k, i.e. `1 << k`. */
  function Pow2(k: nat): (r: nat)
    ensures r >= 1
    ensures k >= 1 ==> r >= 2 && r % 2 == 0
  {
    if k == 0 then 1 else 2 * Pow2(k - 1)
  }

  lemma {:induction false} Pow2Monotone(j: nat, k: nat)
    requires j <= k
    ensures Pow2(j) <= Pow2(k)
  {
    if j < k {
      Pow2Monotone(j, k - 1);
    }
  }

  datatype Option<T> = None | Some(value: T)

  /**
   * The fields of the GCLK CLKCTRL register that route generator `gen`
   * to the peripheral channel `id`, with its enable bit.
   */
  datatype ClkCtrl = ClkCtrl(gen: nat, clkEn: bool, id: nat)
}
