/**
 * The integer arithmetic of the SAMD2x clock-tree bring-up: generic clock
 * generator dividers, the power-of-two test and log2 reduction, the FDPLL
 * reference pre-divider and LDR/LDRFRAC ratio, the DFLL multiplier, the
 * CPU/APB divider exponent and the frequency threshold tables.
 *
 * Members whose name ends in `AsWritten` compute what the C code computes
 * where that differs from the evident intent; the rest of the model uses
 * the corrected members beside them.
 */
module ClockMath {
  import opened Common

  const KHZ_32: nat := 32_000
  const MHZ_1: nat := 1_000_000
  const MHZ_2: nat := 2_000_000
  const MHZ_4: nat := 4_000_000
  const MHZ_8: nat := 8_000_000
  const MHZ_16: nat := 16_000_000
  const MHZ_24: nat := 24_000_000
  const MHZ_48: nat := 48_000_000
  const MHZ_96: nat := 96_000_000

  // ---------------------------------------------------------------------
  // Powers of two

  /** floor(log2 d): what `31 - __builtin_clz(d)` computes for a non-zero u32 d. */
  function Log2(d: nat): (r: nat)
    requires d >= 1
    ensures Pow2(r) <= d < 2 * Pow2(r)
    ensures r < d
  {
    if d == 1 then 0 else 1 + Log2(d / 2)
  }

  lemma {:induction false} Log2OfPow2(k: nat)
    ensures Log2(Pow2(k)) == k
  {
    if k > 0 {
      Log2OfPow2(k - 1);
      assert Pow2(k) / 2 == Pow2(k - 1);
    }
  }

  /**
   * The u32 value of `d & (d - 1)`: d with its lowest set bit cleared.
   * For d = 0 the C expression is `0 & 0xFFFFFFFF`, which is 0.
   */
  function ClearLowestSetBit(d: nat): (r: nat)
    ensures r <= d
    ensures d >= 1 ==> r < d
  {
    if d == 0 then 0
    else if d % 2 == 1 then d - 1
    else 2 * ClearLowestSetBit(d / 2)
  }

  /** The source's power-of-two test `(d & (d - 1)) == 0`. */
  predicate PassesPowerOfTwoTest(d: nat) {
    ClearLowestSetBit(d) == 0
  }

  /** d is 2^k for some k. */
  predicate IsPowerOfTwo(d: nat) {
    d >= 1 && Pow2(Log2(d)) == d
  }

  /** On non-zero values the bit test decides exactly the powers of two. */
  lemma {:induction false} PowerOfTwoTestSound(d: nat)
    requires d >= 1
    ensures PassesPowerOfTwoTest(d) <==> IsPowerOfTwo(d)
  {
    if d == 1 {
    } else if d % 2 == 1 {
      assert Log2(d) >= 1;
    } else {
      PowerOfTwoTestSound(d / 2);
      assert Log2(d) == 1 + Log2(d / 2);
      assert Pow2(Log2(d)) == 2 * Pow2(Log2(d / 2));
    }
  }

  /** The bit test also lets 0 through: `0 & (0 - 1)` is 0. */
  lemma ZeroPassesPowerOfTwoTest()
    ensures PassesPowerOfTwoTest(0) && !IsPowerOfTwo(0)
  {
  }

  // ---------------------------------------------------------------------
  // Rounded division

  /** `(n + d / 2) / d`: n / d rounded to the nearest integer, halves up. */
  function RoundedDiv(n: nat, d: nat): (q: nat)
    requires d >= 1
    ensures q <= n + d / 2
    ensures n >= d ==> q >= 1
    ensures n + d / 2 < d ==> q == 0
  {
    DivBounds(n + d / 2, d);
    (n + d / 2) / d
  }

  lemma DivBounds(m: nat, d: nat)
    requires d >= 1
    ensures m / d <= m
    ensures m >= d ==> m / d >= 1
    ensures m < d ==> m / d == 0
  {
    var q := m / d;
    assert m == d * q + m % d;
    MulMonotone(q, 1, d);
    if m >= d {
      DivAtLeast(m, d, 1);
    } else {
      DivAtMost(m, d, 0);
    }
  }

  /** q * d lies within d / 2 of n: q is a nearest integer to n / d. */
  lemma RoundedDivNearest(n: nat, d: nat)
    requires d >= 1
    ensures var q := RoundedDiv(n, d); q * d <= n + d / 2 && n <= q * d + d / 2
  {
    var m := n + d / 2;
    var q := m / d;
    assert m == d * q + m % d;
  }

  // ---------------------------------------------------------------------
  // Generic clock generator divider (soc_sam0_configure_gclk)

  /**
   * What soc_sam0_configure_gclk programs for one generator: whether
   * GENDIV is written, whether GENCTRL.DIVSEL is set, and the value handed
   * to GCLK_GENDIV_DIV.
   */
  datatype GenDivPlan = GenDivPlan(writesGenDiv: bool, divsel: bool, divField: nat)

  /**
   * The division factor a (DIVSEL, DIV) pair stands for in the code's own
   * encoding: 2^(DIV+1) with DIVSEL, DIV+1 without.
   */
  function DivisorOf(divsel: bool, field: nat): nat {
    if divsel then Pow2(field + 1) else field + 1
  }

  /**
   * The generator divider with the DIVSEL path taken only for factors of
   * at least 2 (see GclkDividerAsWritten for the code's guard).
   */
  function GclkDivider(src: nat, out: nat): (p: GenDivPlan)
    requires 1 <= out <= src
    ensures p.writesGenDiv <==> src != out
    ensures p.writesGenDiv ==> DivisorOf(p.divsel, p.divField) == RoundedDiv(src, out)
    ensures p.divsel <==> p.writesGenDiv && RoundedDiv(src, out) >= 2 && IsPowerOfTwo(RoundedDiv(src, out))
    ensures !p.writesGenDiv ==> !p.divsel
  {
    if src == out then GenDivPlan(false, false, 0)
    else
      var div := RoundedDiv(src, out);
      PowerOfTwoTestSound(div);
      if div >= 2 && PassesPowerOfTwoTest(div) then
        GenDivPlan(true, true, Log2(div) - 1)
      else
        GenDivPlan(true, false, div - 1)
  }

  /**
   * The generator divider exactly as the C code computes it: every factor
   * that passes the bit test, 1 included, takes the DIVSEL path, and
   * `div - 1U` wraps when log2 gives 0. The factor 0 is excluded because
   * `__builtin_clz(0)` is undefined.
   */
  function GclkDividerAsWritten(src: nat, out: nat): (p: GenDivPlan)
    requires out >= 1 && src + out / 2 < 0x1_0000_0000
    requires src != out ==> RoundedDiv(src, out) >= 1
    ensures p.writesGenDiv <==> src != out
    ensures p.divField < 0x1_0000_0000
  {
    if src == out then GenDivPlan(false, false, 0)
    else
      var div := RoundedDiv(src, out);
      if PassesPowerOfTwoTest(div) then
        GenDivPlan(true, true, WrapU32(Log2(div) - 1))
      else
        GenDivPlan(true, false, WrapU32(div - 1))
  }

  /** The two agree whenever the rounded factor is not 1. */
  lemma GclkDividerAgreesAwayFromOne(src: nat, out: nat)
    requires 1 <= out <= src && src + out / 2 < 0x1_0000_0000
    requires src == out || RoundedDiv(src, out) >= 2
    ensures GclkDividerAsWritten(src, out) == GclkDivider(src, out)
  {
    if src != out {
      var div := RoundedDiv(src, out);
      assert Log2(div) >= 1;
    }
  }

  /** Every factor that rounds to 1 takes DIVSEL with the wrapped field, which encodes no factor of 1. */
  lemma GclkDividerAsWrittenAtOne(src: nat, out: nat)
    requires 1 <= out < src && src + out / 2 < 0x1_0000_0000 && RoundedDiv(src, out) == 1
    ensures GclkDividerAsWritten(src, out) == GenDivPlan(true, true, 0xFFFF_FFFF)
    ensures DivisorOf(true, 0xFFFF_FFFF) != 1
  {
    assert PassesPowerOfTwoTest(1) && Log2(1) == 0;
    assert Pow2(0x1_0000_0000) == 2 * Pow2(0xFFFF_FFFF);
  }

  /**
   * A 48 MHz source divided down to 40 MHz rounds to factor 1, which the
   * code sends down the DIVSEL path with DIV = 0 - 1 = 0xFFFFFFFF; the
   * factor that encoding stands for is not 1.
   */
  lemma GclkDividerAsWrittenWrapsAtOne()
    ensures RoundedDiv(48_000_000, 40_000_000) == 1
    ensures GclkDividerAsWritten(48_000_000, 40_000_000) == GenDivPlan(true, true, 0xFFFF_FFFF)
    ensures DivisorOf(true, 0xFFFF_FFFF) != RoundedDiv(48_000_000, 40_000_000)
    ensures GclkDivider(48_000_000, 40_000_000) == GenDivPlan(true, false, 0)
  {
    assert Pow2(0x1_0000_0000) == 2 * Pow2(0xFFFF_FFFF);
  }

  /** 32768 Hz to 1024 Hz: factor 32, DIVSEL, DIV field 4. */
  lemma GclkDividerExample()
    ensures GclkDivider(32768, 1024) == GenDivPlan(true, true, 4)
  {
    Log2OfPow2(5);
    assert Pow2(5) == 32;
  }

  // ---------------------------------------------------------------------
  // FDPLL reference pre-divider (REF1 source only)

  /** The DPLLCTRLB.DIV choice: the divisor div (field div - 1) and the divided reference. */
  datatype PreDivPlan = PreDivPlan(div: int, refOut: int)

  /** `div = MIN(d0, lim)` followed by the clamp to [1, 0x800], with `clk_ref / (2 * div)`. */
  function ClampPreDivider(ref: nat, d0: int, lim: int): (p: PreDivPlan)
    ensures 1 <= p.div <= 0x800
    ensures p.refOut == ref / (2 * p.div)
  {
    var d1 := if d0 < lim then d0 else lim;
    var d := if d1 > 0x800 then 0x800 else if d1 < 1 then 1 else d1;
    PreDivPlan(d, ref / (2 * d))
  }

  /** `clk_ref / (2U * KHZ(32)) - 1U` in u32 arithmetic. */
  function PreDividerLimit(ref: nat): u32 {
    WrapU32(ref / (2 * KHZ_32) - 1)
  }

  /**
   * The pre-divider as the C code computes it: `ref / (2 * target)` is
   * truncated before it is scaled by 0x1000.
   */
  function FdpllPreDividerAsWritten(ref: u32, target: nat): PreDivPlan
    requires target >= 1
  {
    ClampPreDivider(ref, ref / (2 * target) * 0x1000, PreDividerLimit(ref))
  }

  /**
   * Whenever the reference is below twice the target (always, given the
   * asserted target of at least 48 MHz), the code's pre-divider is 1 and
   * the PLL sees half the reference.
   */
  lemma {:induction false} FdpllPreDividerAsWrittenCollapses(ref: u32, target: nat)
    requires 1 <= target && ref < 2 * target
    ensures FdpllPreDividerAsWritten(ref, target) == PreDivPlan(1, ref / 2)
  {
    DivAtMost(ref, 2 * target, 0);
  }

  /** An 8 MHz crystal feeding a 48 MHz FDPLL reaches the PLL at 4 MHz, above 2 MHz. */
  lemma FdpllPreDividerAsWrittenExceedsLimit()
    ensures FdpllPreDividerAsWritten(8_000_000, MHZ_48).refOut == 4_000_000 > MHZ_2
    ensures FdpllPreDivider(8_000_000, MHZ_48) == PreDivPlan(124, 32258)
  {
    FdpllPreDividerAsWrittenCollapses(8_000_000, MHZ_48);
  }

  /**
   * The pre-divider with `ref * 0x1000 / (2 * target)` computed without
   * truncating first: the PLL input lands in [32 kHz, 2 MHz].
   */
  function FdpllPreDivider(ref: u32, target: nat): (p: PreDivPlan)
    requires MHZ_48 <= target <= MHZ_96
    ensures 1 <= p.div <= 0x800
    ensures p.refOut == ref / (2 * p.div)
    ensures p.refOut <= MHZ_2
    ensures ref >= 2 * KHZ_32 ==> p.refOut >= KHZ_32
    ensures ref >= 0x1000 ==> p.refOut >= 1
  {
    var p := ClampPreDivider(ref, ref * 0x1000 / (2 * target), PreDividerLimit(ref));
    PreDividerBounds(ref, target, p);
    p
  }

  lemma PreDividerBounds(ref: u32, target: nat, p: PreDivPlan)
    requires MHZ_48 <= target <= MHZ_96
    requires p == ClampPreDivider(ref, ref * 0x1000 / (2 * target), PreDividerLimit(ref))
    ensures p.refOut <= MHZ_2
    ensures ref >= 2 * KHZ_32 ==> p.refOut >= KHZ_32
    ensures ref >= 0x1000 ==> p.refOut >= 1
  {
    if ref >= 0x1000 {
      DivAtLeast(ref, 2 * p.div, 1);
    }
    var d0 := ref * 0x1000 / (2 * target);
    var lim := PreDividerLimit(ref);
    PreDividerUpperBound(ref, target, d0, lim, p.div);
    PreDividerLowerBound(ref, lim, p.div, d0);
  }

  /** a / b <= c as soon as a < b * (c + 1). */
  lemma DivAtMost(a: nat, b: nat, c: nat)
    requires b >= 1 && a < b * (c + 1)
    ensures a / b <= c
  {
    var q := a / b;
    assert a == b * q + a % b;
    if q > c {
      MulMonotone(b, c + 1, q);
      assert false;
    }
  }

  /** a / b >= c as soon as a >= b * c. */
  lemma DivAtLeast(a: nat, b: nat, c: nat)
    requires b >= 1 && a >= b * c
    ensures a / b >= c
  {
    var q := a / b;
    assert a == b * q + a % b;
    assert b * (q + 1) == b * q + b;
    if q < c {
      MulMonotone(b, q + 1, c);
      assert false;
    }
  }

  lemma MulMonotone(k: nat, x: nat, y: nat)
    requires x <= y
    ensures k * x <= k * y
  {
    assert k * y == k * x + k * (y - x);
  }

  lemma PreDividerUpperBound(ref: u32, target: nat, d0: int, lim: u32, d: int)
    requires MHZ_48 <= target <= MHZ_96
    requires d0 == ref * 0x1000 / (2 * target) && lim == PreDividerLimit(ref)
    requires d == ClampPreDivider(ref, d0, lim).div
    ensures ref / (2 * d) <= MHZ_2
  {
    // It suffices that ref <= 4 MHz * d.
    if ref > MHZ_4 {
      LimitLargeEnough(ref);
      ScaledQuotientLargeEnough(ref, target);
      var d1 := if d0 < lim then d0 else lim;
      assert ref <= MHZ_4 * d1;
      assert d1 >= 1;
      assert ref <= MHZ_4 * d;
    }
    DivAtMost(ref, 2 * d, MHZ_2);
  }

  /** Above 4 MHz, `ref / 64 kHz - 1` is at least ref / 4 MHz. */
  lemma LimitLargeEnough(ref: u32)
    requires ref > MHZ_4
    ensures ref <= MHZ_4 * PreDividerLimit(ref)
  {
    var q := ref / (2 * KHZ_32);
    assert ref == 64_000 * q + ref % 64_000;
    assert q >= 62;
    assert PreDividerLimit(ref) == q - 1;
  }

  /** Above 4 MHz, `ref * 0x1000 / (2 * target)` is at least ref / 4 MHz. */
  lemma ScaledQuotientLargeEnough(ref: u32, target: nat)
    requires ref > MHZ_4 && MHZ_48 <= target <= MHZ_96
    ensures ref <= MHZ_4 * (ref * 0x1000 / (2 * target))
  {
    var n := ref * 0x1000;
    var t2 := 2 * target;
    var d0 := n / t2;
    var x := t2 * d0;
    assert n == x + n % t2;
    // x <= 192 MHz * d0 and x > n - t2 leave only linear reasoning.
    MulMonotone(d0, t2, 192_000_000);
    assert x == d0 * t2;
    assert x <= 192_000_000 * d0;
  }

  lemma PreDividerLowerBound(ref: u32, lim: u32, d: int, d0: int)
    requires lim == PreDividerLimit(ref)
    requires d == ClampPreDivider(ref, d0, lim).div
    ensures ref >= 2 * KHZ_32 ==> ref / (2 * d) >= KHZ_32
  {
    if ref >= 2 * KHZ_32 {
      var q := ref / (2 * KHZ_32);
      assert lim == q - 1;
      assert ref >= 2 * KHZ_32 * q;
      // d <= max(1, min(lim, 0x800)) <= q when q <= 0x801, and d == 0x800 otherwise.
      if d == 0x800 {
        assert lim >= 0x800;
        assert ref >= 2 * KHZ_32 * 0x801;
      } else {
        assert d <= q;
      }
      assert ref >= 2 * d * KHZ_32;
      DivAtLeast(ref, 2 * d, KHZ_32);
    }
  }

  // ---------------------------------------------------------------------
  // FDPLL ratio

  /** mul = round(16 * target / ref) and its LDR (minus one) / LDRFRAC split. */
  datatype RatioPlan = RatioPlan(mul: nat, ldr: nat, ldrFrac: nat)

  function FdpllRatio(target: nat, ref: nat): (r: RatioPlan)
    requires 1 <= ref <= target
    ensures r.ldrFrac < 16
    ensures (r.ldr + 1) * 16 + r.ldrFrac == r.mul
    ensures r.mul * ref <= 16 * target + ref / 2 && 16 * target <= r.mul * ref + ref / 2
  {
    var mul := RoundedDiv(target * 16, ref);
    DivAtLeast(target * 16 + ref / 2, ref, 16);
    RatioPlan(mul, mul / 16 - 1, mul % 16)
  }

  /** `target << 4` stays within u32 under the 96 MHz limit. */
  lemma FdpllRatioFitsU32(target: nat, ref: u32)
    requires target <= MHZ_96
    ensures target * 16 + ref / 2 < 0x1_0000_0000
  {
  }

  /** With a PLL input of at least 32 kHz and at most 96 MHz out, LDR fits its 12-bit field. */
  lemma FdpllLdrFitsField(target: nat, ref: nat)
    requires KHZ_32 <= ref <= target <= MHZ_96
    ensures FdpllRatio(target, ref).ldr < 0x1000
  {
    var r := FdpllRatio(target, ref);
    RoundedDivNearest(target * 16, ref);
    assert r.mul * ref <= 16 * MHZ_96 + MHZ_48;
    MulMonotone(r.mul, KHZ_32, ref);
    assert r.mul <= 49_500;
  }

  /** A 32768 Hz reference and a 48 MHz target: 768e6 / 32768 is 23437.5, which rounds up. */
  lemma FdpllRatioExample()
    ensures FdpllRatio(MHZ_48, 32768) == RatioPlan(23438, 1463, 14)
  {
  }

  // ---------------------------------------------------------------------
  // DFLL multiplier

  /** `(target + ref / 2) / ref`: at least 1, and mul * ref is within ref / 2 of target. */
  function DfllMultiplier(target: nat, ref: nat): (mul: nat)
    requires 1 <= ref <= target
    ensures mul >= 1
    ensures mul * ref <= target + ref / 2 && target <= mul * ref + ref / 2
  {
    RoundedDiv(target, ref)
  }

  // ---------------------------------------------------------------------
  // CPU and APB dividers (soc_sam0_dividers_init)

  /** The two __ASSERTs on the quotient, with the quotient 0 excluded. */
  predicate CpuDividerOk(src: nat, cpu: nat) {
    cpu >= 1 && src / cpu >= 1 && PassesPowerOfTwoTest(src / cpu) && Log2(src / cpu) <= 7
  }

  /** The exponent written to CPUDIV, APBADIV, APBBDIV and APBCDIV. */
  function CpuDividerExponent(src: nat, cpu: nat): (e: nat)
    requires CpuDividerOk(src, cpu)
    ensures e <= 7 && Pow2(e) == src / cpu
  {
    PowerOfTwoTestSound(src / cpu);
    Log2(src / cpu)
  }

  /** A CPU frequency above the source makes the quotient 0, which the first assert lets through. */
  lemma CpuDividerZeroPassesAssert(src: nat, cpu: nat)
    requires 1 <= cpu && src < cpu
    ensures src / cpu == 0 && PassesPowerOfTwoTest(src / cpu)
    ensures !CpuDividerOk(src, cpu)
  {
  }

  // ---------------------------------------------------------------------
  // Threshold tables

  /** NVMCTRL CTRLB.RWS for the AHB frequency (wait states for Vdd >= 2.7 V). */
  function FlashWaitStates(ahb: nat): nat {
    if ahb <= MHZ_24 then 0 else 1
  }

  lemma FlashWaitStatesThreshold(a: nat, b: nat)
    ensures FlashWaitStates(a) == 0 <==> a <= MHZ_24
    ensures FlashWaitStates(a) == 1 <==> a > MHZ_24
    ensures a <= b ==> FlashWaitStates(a) <= FlashWaitStates(b)
  {
  }

  /** The XOSC frequency band: <= 2, <= 4, <= 8, <= 16 MHz, or above. */
  function XoscBand(f: nat): nat {
    if f <= MHZ_2 then 0
    else if f <= MHZ_4 then 1
    else if f <= MHZ_8 then 2
    else if f <= MHZ_16 then 3
    else 4
  }

  /** XOSC.GAIN: the band index. */
  function XoscGain(f: nat): nat {
    XoscBand(f)
  }

  /** XOSC.STARTUP per band. */
  function XoscStartup(f: nat): nat {
    [7, 8, 6, 5, 4][XoscBand(f)]
  }

  lemma XoscTables(f: nat, g: nat)
    ensures XoscGain(f) <= 4
    ensures f <= g ==> XoscGain(f) <= XoscGain(g)
    ensures XoscGain(f) == 0 ==> XoscStartup(f) == 7
    ensures XoscGain(f) == 1 ==> XoscStartup(f) == 8
    ensures XoscGain(f) == 2 ==> XoscStartup(f) == 6
    ensures XoscGain(f) == 3 ==> XoscStartup(f) == 5
    ensures XoscGain(f) == 4 ==> XoscStartup(f) == 4
    ensures XoscGain(f) == 0 <==> f <= MHZ_2
    ensures XoscGain(f) == 1 <==> MHZ_2 < f <= MHZ_4
    ensures XoscGain(f) == 2 <==> MHZ_4 < f <= MHZ_8
    ensures XoscGain(f) == 3 <==> MHZ_8 < f <= MHZ_16
    ensures XoscGain(f) == 4 <==> f > MHZ_16
  {
  }

  /** OSC8M.PRESC for the configured OSC8M frequency; None is the `#error` branch. */
  function Osc8mPrescaler(f: nat): (r: Option<nat>)
    ensures r.Some? ==> r.value <= 3 && MHZ_8 / Pow2(r.value) == f
    ensures r.None? <==> f != MHZ_8 && f != MHZ_4 && f != MHZ_2 && f != MHZ_1
  {
    if f == MHZ_8 then Some(0)
    else if f == MHZ_4 then Some(1)
    else if f == MHZ_2 then Some(2)
    else if f == MHZ_1 then Some(3)
    else None
  }
}
