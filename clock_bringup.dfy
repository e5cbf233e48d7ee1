/**
 * The SAMD2x clock-tree bring-up (soc_sam0_clock_init and the static
 * helpers it calls) as a sequence of register writes and hardware waits.
 *
 * The build-time devicetree frequencies become a ClockConfig record. Each
 * register write is a Write value holding the named fields the code sets;
 * every busy-wait loop becomes one Event with no claim about how long it
 * spins. The class ClockRegisters appends those events to its trace one
 * helper at a time, and each of its methods is proved to append exactly
 * the events of a specification function. The lemmas at the end state the
 * ordering the bring-up promises on the whole trace.
 */
module ClockBringUp {
  import opened Common
  import opened ClockMath

  // ---------------------------------------------------------------------
  // Register writes and events

  datatype Osc = Osc8m | Osc32k | Xosc | Xosc32k | Dfll48m | Fdpll96m

  /** The clock domains whose divider PM selects: CPUSEL, APBASEL, APBBSEL, APBCSEL. */
  datatype Bus = Cpu | ApbA | ApbB | ApbC

  /** DPLLCTRLB.REFCLK: XOSC32K (REF0), XOSC (REF1) or a generic clock. */
  datatype DpllRefClk = Ref0 | Ref1 | RefGclk

  /** CLKCTRL channel numbers of the DFLL48M reference and the FDPLL96M reference. */
  const CLKCTRL_ID_DFLL48: nat := 0
  const CLKCTRL_ID_FDPLL: nat := 1

  /** One register write, by the fields the code sets; fields it leaves out are zero. */
  datatype Write =
    | FlashWait(rws: nat)
    | Osc8mPresc(presc: nat)
    | Osc32kCtrl(calib: nat, startup: nat, en32k: bool, enable: bool)
    | XoscCtrl(xtalEn: bool, enable: bool, gain: nat, startup: nat)
    | Xosc32kCtrl(startup: nat, xtalEn: bool, en32k: bool, enable: bool)
    | GenDiv(id: nat, div: nat)
    | GenCtrl(id: nat, src: nat, idc: bool, genEn: bool, divSel: bool)
    | ClkCtrlWrite(ctrl: ClkCtrl)
    | DfllCtrl(enable: bool, onDemand: bool, qlDis: bool, waitLock: bool, closedLoop: bool)
    | DfllVal(coarse: nat, fine: nat)
    | DfllMul(cStep: nat, fStep: nat, mul: nat)
    | DpllRatio(ldr: nat, ldrFrac: nat)
    | DpllCtrlB(refClk: DpllRefClk, div: nat)
    | DpllCtrlA(enable: bool, onDemand: bool)
    | PmDiv(bus: Bus, exponent: nat)
    | OnDemand(osc: Osc, on: bool)

  datatype Event =
    | Wr(w: Write)
    /** The wait for GCLK STATUS.SYNCBUSY to clear. */
    | SyncGclk
    /** The wait for an oscillator's ready flag in PCLKSR. */
    | WaitOscReady(osc: Osc)
    /** The wait for the DFLL coarse and fine lock flags. */
    | WaitDfllLock
    /** The wait for DPLLSTATUS LOCK and CLKRDY. */
    | WaitDpllLock

  /** The DFLLCTRL value written first: ENABLE alone, ONDEMAND clear (errata 1.2.1). */
  const DFLL_ENABLE_ONLY: Write := DfllCtrl(true, false, false, false, false)

  // ---------------------------------------------------------------------
  // Build-time configuration

  /** A generic clock generator: its source id, the source's frequency and its output frequency. */
  datatype Gclk = Gclk(src: nat, srcFreq: nat, freq: nat)

  /** The generator feeding the DFLL reference channel and that reference's frequency. */
  datatype DfllRef = DfllRef(gen: nat, freq: nat)

  /** The DFLL: its output frequency, and a reference for closed-loop mode (open loop without). */
  datatype DfllCfg = DfllCfg(freq: nat, reference: Option<DfllRef>)

  /** The FDPLL: output frequency, reference selector, reference frequency, generator for RefGclk. */
  datatype FdpllCfg = FdpllCfg(freq: nat, refClk: DpllRefClk, refFreq: nat, refGen: nat)

  /** The factory calibration values read from the fuse rows. */
  datatype Fuses = Fuses(osc32kCal: nat, dfllCoarse: nat, dfllFine: nat)

  /**
   * The devicetree configuration. A fixed oscillator frequency of 0 means
   * the oscillator is not configured; gclks[n] is generator n (0..8).
   * `dfllWaitLock` says whether the part defines DFLLCTRL.WAITLOCK.
   */
  datatype ClockConfig = ClockConfig(
    cpuFreq: nat,
    osc8mFreq: nat,
    osc32kFreq: nat,
    xoscFreq: nat,
    xosc32kFreq: nat,
    gclks: seq<Option<Gclk>>,
    dfll: Option<DfllCfg>,
    fdpll: Option<FdpllCfg>,
    dfllWaitLock: bool,
    fuses: Fuses)

  /** A generator divides its source down (out <= src) without overflowing the u32 rounding sum. */
  predicate GclkOk(g: Gclk) {
    1 <= g.freq <= g.srcFreq && g.srcFreq + g.freq / 2 < 0x1_0000_0000
  }

  predicate GclksOk(gclks: seq<Option<Gclk>>) {
    forall n :: 0 <= n < |gclks| && gclks[n].Some? ==> GclkOk(gclks[n].value)
  }

  /** The DFLL build assert (target >= reference), with no u32 overflow in the rounding sum. */
  predicate DfllOk(d: DfllCfg) {
    d.reference.Some? ==>
      1 <= d.reference.value.freq <= d.freq
      && d.freq + d.reference.value.freq / 2 < 0x1_0000_0000
  }

  /** The five FDPLL build asserts. */
  predicate FdpllOk(f: FdpllCfg) {
    KHZ_32 <= f.refFreq <= f.freq
    && (f.refClk == Ref1 || f.refFreq <= MHZ_2)
    && MHZ_48 <= f.freq <= MHZ_96
  }

  /**
   * What the build asserts evidently mean to establish: every configured
   * generator, GCLK3 included, has 1 <= out <= src; the OSC8M frequency
   * has a prescaler; the DFLL and FDPLL asserts hold; and the CPU divider
   * is a non-zero power of two of at most 128.
   */
  predicate ValidConfig(c: ClockConfig) {
    |c.gclks| == 9 && c.gclks[0].Some?
    && GclksOk(c.gclks)
    && Osc8mPrescaler(c.osc8mFreq).Some?
    && (c.dfll.Some? ==> DfllOk(c.dfll.value))
    && (c.fdpll.Some? ==> FdpllOk(c.fdpll.value))
    && CpuDividerOk(c.gclks[0].value.srcFreq, c.cpuFreq)
  }

  /**
   * The generator asserts as the code writes them: the assert placed
   * before generator n (n = 1, 2, 3) checks generator n - 1, so
   * generator 3 is never checked, and none of them excludes an output
   * frequency of 0.
   */
  predicate GclkAssertsAsWritten(gclks: seq<Option<Gclk>>)
    requires |gclks| == 9
  {
    gclks[0].Some? && gclks[0].value.freq <= gclks[0].value.srcFreq
    && (forall n :: 1 <= n <= 3 && gclks[n].Some? ==>
          gclks[n - 1].Some? && gclks[n - 1].value.freq <= gclks[n - 1].value.srcFreq)
    && (forall n :: 4 <= n < 9 && gclks[n].Some? ==> gclks[n].value.freq <= gclks[n].value.srcFreq)
  }

  /**
   * Generator 3 dividing a 32768 Hz source "down" to 1 MHz passes the
   * generator asserts as written, and its rounded factor is 0, which the
   * bit test accepts and hands to `__builtin_clz`.
   */
  lemma Gclk3UncheckedByBuildAsserts()
    ensures var g := [Some(Gclk(6, MHZ_8, MHZ_8)), Some(Gclk(6, MHZ_8, MHZ_8)), Some(Gclk(6, MHZ_8, MHZ_1)),
                      Some(Gclk(5, 32768, MHZ_1)), None, None, None, None, None];
            GclkAssertsAsWritten(g) && !GclksOk(g)
            && RoundedDiv(32768, MHZ_1) == 0 && PassesPowerOfTwoTest(RoundedDiv(32768, MHZ_1))
  {
    var g := [Some(Gclk(6, MHZ_8, MHZ_8)), Some(Gclk(6, MHZ_8, MHZ_8)), Some(Gclk(6, MHZ_8, MHZ_1)),
              Some(Gclk(5, 32768, MHZ_1)), None, None, None, None, None];
    assert g[3].Some? && !GclkOk(g[3].value);
    forall n | 1 <= n <= 3 && g[n].Some?
      ensures g[n - 1].Some? && g[n - 1].value.freq <= g[n - 1].value.srcFreq
    {
      assert n == 1 || n == 2 || n == 3;
    }
    DivAtMost(32768 + MHZ_1 / 2, MHZ_1, 0);
  }

  /**
   * With the corrected asserts every generator that writes GENDIV has a
   * factor of at least 1 and a DIV field that encodes exactly that factor.
   */
  lemma ValidConfigGclkDividers(c: ClockConfig, n: nat)
    requires ValidConfig(c) && n < 9 && c.gclks[n].Some?
    requires c.gclks[n].value.srcFreq != c.gclks[n].value.freq
    ensures var g := c.gclks[n].value;
            RoundedDiv(g.srcFreq, g.freq) >= 1
            && GclkDivider(g.srcFreq, g.freq).writesGenDiv
            && DivisorOf(GclkDivider(g.srcFreq, g.freq).divsel, GclkDivider(g.srcFreq, g.freq).divField)
               == RoundedDiv(g.srcFreq, g.freq)
  {
    assert GclkOk(c.gclks[n].value);
  }

  /**
   * What soc_sam0_configure_gclk writes for a dividing generator: GENDIV,
   * a sync, GENCTRL, a sync. A rounded factor of at least 2 is encoded
   * exactly; a factor of 1 gets DIVSEL with the wrapped DIV field
   * 0xFFFFFFFF, which encodes no factor of 1.
   */
  lemma ConfiguredGclkDivider(c: ClockConfig, n: nat)
    requires ValidConfig(c) && n < 9 && c.gclks[n].Some?
    requires c.gclks[n].value.srcFreq != c.gclks[n].value.freq
    ensures var g := c.gclks[n].value;
            var t := GclkSetupEvents(n, g);
            var div := RoundedDiv(g.srcFreq, g.freq);
            |t| == 4 && t[0] == Wr(GenDiv(n, t[0].w.div)) && t[1] == SyncGclk
            && t[2] == Wr(GenCtrl(n, g.src, true, true, t[2].w.divSel)) && t[3] == SyncGclk
            && (div >= 2 ==> DivisorOf(t[2].w.divSel, t[0].w.div) == div)
            && (div == 1 ==> t[2].w.divSel && t[0].w.div == 0xFFFF_FFFF && DivisorOf(true, 0xFFFF_FFFF) != 1)
  {
    var g := c.gclks[n].value;
    assert GclkOk(g);
    var div := RoundedDiv(g.srcFreq, g.freq);
    if div >= 2 {
      GclkDividerAgreesAwayFromOne(g.srcFreq, g.freq);
    } else {
      GclkDividerAsWrittenAtOne(g.srcFreq, g.freq);
    }
  }

  // ---------------------------------------------------------------------
  // The events of each helper

  /** soc_sam0_flash_wait_init. */
  function FlashWaitEvents(ahb: nat): seq<Event> {
    [Wr(FlashWait(FlashWaitStates(ahb)))]
  }

  /** soc_sam0_osc8m_init: the prescaler, then ONDEMAND cleared. */
  function Osc8mEvents(f: nat): seq<Event>
    requires Osc8mPrescaler(f).Some?
  {
    [Wr(Osc8mPresc(Osc8mPrescaler(f).value)), Wr(OnDemand(Osc8m, false))]
  }

  /** soc_sam0_osc32k_init: calibration from the fuses, STARTUP 6, EN32K, ENABLE. */
  function Osc32kEvents(f: nat, cal: nat): seq<Event> {
    if f != 0 then [Wr(Osc32kCtrl(cal, 6, true, true))] else []
  }

  /** soc_sam0_xosc_init: crystal enabled, gain and startup from the frequency band. */
  function XoscEvents(f: nat): seq<Event> {
    if f != 0 then [Wr(XoscCtrl(true, true, XoscGain(f), XoscStartup(f)))] else []
  }

  /** soc_sam0_xosc32k_init: STARTUP 6, XTALEN, EN32K, ENABLE. */
  function Xosc32kEvents(f: nat): seq<Event> {
    if f != 0 then [Wr(Xosc32kCtrl(6, true, true, true))] else []
  }

  function FixedOscEvents(c: ClockConfig): seq<Event>
    requires Osc8mPrescaler(c.osc8mFreq).Some?
  {
    Osc8mEvents(c.osc8mFreq) + Osc32kEvents(c.osc32kFreq, c.fuses.osc32kCal)
    + XoscEvents(c.xoscFreq) + Xosc32kEvents(c.xosc32kFreq)
  }

  /** soc_sam0_wait_fixed_osc_ready. */
  function FixedOscReadyEvents(c: ClockConfig): seq<Event> {
    (if c.osc32kFreq != 0 then [WaitOscReady(Osc32k)] else [])
    + (if c.xoscFreq != 0 then [WaitOscReady(Xosc)] else [])
    + (if c.xosc32kFreq != 0 then [WaitOscReady(Xosc32k)] else [])
  }

  /** soc_sam0_configure_gclk: GENDIV and a sync when dividing, then GENCTRL and a sync. */
  function GclkSetupEvents(id: nat, g: Gclk): seq<Event>
    requires GclkOk(g)
  {
    var p := GclkDividerAsWritten(g.srcFreq, g.freq);
    (if p.writesGenDiv then [Wr(GenDiv(id, p.divField)), SyncGclk] else [])
    + [Wr(GenCtrl(id, g.src, true, true, p.divsel)), SyncGclk]
  }

  /** One SOC_SAM0_SETUP_GCLK(n) block: nothing when generator n is not configured. */
  function GclkEventsFor(gclks: seq<Option<Gclk>>, n: nat): seq<Event>
    requires n < |gclks| && GclksOk(gclks)
  {
    if gclks[n].Some? then GclkSetupEvents(n, gclks[n].value) else []
  }

  /** The blocks for generators lo .. hi - 1, in index order. */
  function GclkRangeEvents(gclks: seq<Option<Gclk>>, lo: nat, hi: nat): seq<Event>
    requires lo <= hi <= |gclks| && GclksOk(gclks)
    decreases hi - lo
  {
    if lo == hi then [] else GclkRangeEvents(gclks, lo, hi - 1) + GclkEventsFor(gclks, hi - 1)
  }

  /**
   * soc_sam0_dfll_init: ENABLE alone, the fuse calibration, in closed loop
   * the reference routing, a sync and DFLLMUL, then the final DFLLCTRL.
   */
  function DfllEvents(d: Option<DfllCfg>, fuses: Fuses, waitLock: bool): seq<Event>
    requires d.Some? ==> DfllOk(d.value)
  {
    match d
    case None => []
    case Some(dfll) =>
      [Wr(DFLL_ENABLE_ONLY), Wr(DfllVal(fuses.dfllCoarse, fuses.dfllFine))]
      + (match dfll.reference
         case None => []
         case Some(r) =>
           [Wr(ClkCtrlWrite(ClkCtrl(r.gen, true, CLKCTRL_ID_DFLL48))), SyncGclk,
            Wr(DfllMul(31, 511, DfllMultiplier(dfll.freq, r.freq)))])
      + [Wr(DfllCtrl(true, false, true, waitLock, dfll.reference.Some?))]
  }

  /** The reference the FDPLL ratio is computed against, and the DPLLCTRLB.DIV field. */
  datatype DpllInput = DpllInput(clkRef: nat, divField: nat)

  /**
   * The PLL input as soc_sam0_fdpll_init computes it. With the crystal
   * (REF1) as reference the code's pre-divider always collapses to 1 under
   * the FDPLL asserts, so the PLL sees half the crystal and DIV is 0.
   */
  function DpllInputOf(p: FdpllCfg): (r: DpllInput)
    requires FdpllOk(p)
    ensures 1 <= r.clkRef <= p.freq
    ensures p.refClk != Ref1 ==> r == DpllInput(p.refFreq, 0)
    ensures p.refClk == Ref1 ==> r == DpllInput(p.refFreq / 2, 0)
  {
    if p.refClk == Ref1 then
      var pre := FdpllPreDividerAsWritten(p.refFreq, p.freq);
      FdpllPreDividerAsWrittenCollapses(p.refFreq, p.freq);
      DpllInput(pre.refOut, pre.div - 1)
    else
      DpllInput(p.refFreq, 0)
  }

  /** The PLL input with the corrected pre-divider. */
  function IntendedDpllInput(p: FdpllCfg): (r: DpllInput)
    requires FdpllOk(p)
    ensures 1 <= r.clkRef <= p.freq
    ensures p.refClk != Ref1 ==> r == DpllInput(p.refFreq, 0)
    ensures p.refClk == Ref1 ==>
      r.divField < 0x800 && r.clkRef == p.refFreq / (2 * (r.divField + 1)) && r.clkRef <= MHZ_2
    ensures p.refClk == Ref1 && p.refFreq >= 2 * KHZ_32 ==> r.clkRef >= KHZ_32
  {
    if p.refClk == Ref1 then
      var pre := FdpllPreDivider(p.refFreq, p.freq);
      DpllInput(pre.refOut, pre.div - 1)
    else
      DpllInput(p.refFreq, 0)
  }

  /**
   * With the corrected pre-divider the PLL input lies in the 32 kHz to
   * 2 MHz window the DPLL accepts, and the ratio's LDR fits its 12-bit
   * field. XOSC as reference needs at least 64 kHz: the divider divides
   * by at least two.
   */
  lemma DpllInputInRange(p: FdpllCfg)
    requires FdpllOk(p) && (p.refClk == Ref1 ==> p.refFreq >= 2 * KHZ_32)
    ensures KHZ_32 <= IntendedDpllInput(p).clkRef <= MHZ_2
    ensures FdpllRatio(p.freq, IntendedDpllInput(p).clkRef).ldr < 0x1000
  {
    FdpllLdrFitsField(p.freq, IntendedDpllInput(p).clkRef);
  }

  /**
   * As the code computes it, a crystal reference reaches the PLL within
   * 2 MHz exactly when the crystal is below 4 MHz + 2 Hz; a 32768 Hz
   * crystal under a 96 MHz target gives an LDR of 5858, which does not
   * fit the 12-bit field.
   */
  lemma DpllInputAsWrittenLeavesWindow(p: FdpllCfg)
    requires FdpllOk(p) && p.refClk == Ref1
    ensures DpllInputOf(p).clkRef <= MHZ_2 <==> p.refFreq < 2 * MHZ_2 + 2
    ensures FdpllRatio(MHZ_96, 32768 / 2).ldr == 5858 && LdrField(5858) == 5858 - 0x1000
  {
  }

  /** SYSCTRL_DPLLRATIO_LDR: the value masked to the 12-bit LDR field. */
  function LdrField(ldr: nat): (f: nat)
    ensures f < 0x1000
    ensures ldr < 0x1000 ==> f == ldr
  {
    ldr % 0x1000
  }

  /**
   * soc_sam0_fdpll_init: with a GCLK reference the routing and a sync,
   * then DPLLRATIO, DPLLCTRLB and DPLLCTRLA.
   */
  function FdpllEvents(f: Option<FdpllCfg>): seq<Event>
    requires f.Some? ==> FdpllOk(f.value)
  {
    match f
    case None => []
    case Some(p) =>
      var input := DpllInputOf(p);
      var ratio := FdpllRatio(p.freq, input.clkRef);
      (if p.refClk == RefGclk then [Wr(ClkCtrlWrite(ClkCtrl(p.refGen, true, CLKCTRL_ID_FDPLL))), SyncGclk] else [])
      + [Wr(DpllRatio(LdrField(ratio.ldr), ratio.ldrFrac)), Wr(DpllCtrlB(p.refClk, input.divField)),
         Wr(DpllCtrlA(true, false))]
  }

  /** soc_sam0_wait_programmable_osc_ready. */
  function ProgrammableReadyEvents(d: Option<DfllCfg>, f: Option<FdpllCfg>): seq<Event> {
    (if d.Some? then
       (if d.value.reference.Some? then [WaitDfllLock] else []) + [WaitOscReady(Dfll48m)]
     else [])
    + (if f.Some? then [WaitDpllLock] else [])
  }

  /** soc_sam0_dividers_init: one exponent to all four divider selections. */
  function DividerEvents(exponent: nat): seq<Event> {
    [Wr(PmDiv(Cpu, exponent)), Wr(PmDiv(ApbA, exponent)), Wr(PmDiv(ApbB, exponent)),
     Wr(PmDiv(ApbC, exponent))]
  }

  /** soc_sam0_osc_ondemand; the FDPLL is guarded by its reference frequency. */
  function OnDemandEvents(c: ClockConfig): seq<Event> {
    OnDemandIf(true, Osc8m)
    + OnDemandIf(c.osc32kFreq != 0, Osc32k)
    + OnDemandIf(c.xosc32kFreq != 0, Xosc32k)
    + OnDemandIf(c.xoscFreq != 0, Xosc)
    + OnDemandIf(c.dfll.Some?, Dfll48m)
    + OnDemandIf(c.fdpll.Some? && c.fdpll.value.refFreq != 0, Fdpll96m)
  }

  /** The ONDEMAND bit set on oscillator o when its `#if` guard b holds. */
  function OnDemandIf(b: bool, o: Osc): seq<Event> {
    if b then [Wr(OnDemand(o, true))] else []
  }

  /** The oscillators soc_sam0_osc_ondemand switches to ONDEMAND. */
  predicate OnDemandEnabled(c: ClockConfig, o: Osc) {
    match o
    case Osc8m => true
    case Osc32k => c.osc32kFreq != 0
    case Xosc => c.xoscFreq != 0
    case Xosc32k => c.xosc32kFreq != 0
    case Dfll48m => c.dfll.Some?
    case Fdpll96m => c.fdpll.Some? && c.fdpll.value.refFreq != 0
  }

  function CpuExponent(c: ClockConfig): nat
    requires ValidConfig(c)
  {
    CpuDividerExponent(c.gclks[0].value.srcFreq, c.cpuFreq)
  }

  /**
   * The nine stages of soc_sam0_clock_init: flash wait states, fixed
   * oscillators, their ready wait, GCLK1..8, DFLL then FDPLL, their
   * ready wait, GCLK0, the CPU/APB dividers, ONDEMAND.
   */
  function Stages(c: ClockConfig): (ss: seq<seq<Event>>)
    requires ValidConfig(c)
    ensures |ss| == 9
  {
    [FlashWaitEvents(c.cpuFreq),
     FixedOscEvents(c),
     FixedOscReadyEvents(c),
     GclkRangeEvents(c.gclks, 1, 9),
     DfllEvents(c.dfll, c.fuses, c.dfllWaitLock) + FdpllEvents(c.fdpll),
     ProgrammableReadyEvents(c.dfll, c.fdpll),
     GclkSetupEvents(0, c.gclks[0].value),
     DividerEvents(CpuExponent(c)),
     OnDemandEvents(c)]
  }

  function Flatten(ss: seq<seq<Event>>): seq<Event> {
    if ss == [] then [] else ss[0] + Flatten(ss[1..])
  }

  /** Every event soc_sam0_clock_init produces, in order. */
  function BringUpTrace(c: ClockConfig): seq<Event>
    requires ValidConfig(c)
  {
    Flatten(Stages(c))
  }

  // ---------------------------------------------------------------------
  // The register file as the code drives it

  class ClockRegisters {
    /** Every register write and hardware wait so far, oldest first. */
    var trace: seq<Event>

    constructor ()
      ensures trace == []
    {
      trace := [];
    }

    method FlashWaitInit(ahb: nat)
      modifies this
      ensures trace == old(trace) + FlashWaitEvents(ahb)
    {
      if ahb <= 24_000_000 {
        trace := trace + [Wr(FlashWait(0))];
      } else {
        trace := trace + [Wr(FlashWait(1))];
      }
    }

    method Osc8mInit(f: nat)
      requires Osc8mPrescaler(f).Some?
      modifies this
      ensures trace == old(trace) + Osc8mEvents(f)
    {
      var presc;
      if f == MHZ_8 {
        presc := 0;
      } else if f == MHZ_4 {
        presc := 1;
      } else if f == MHZ_2 {
        presc := 2;
      } else {
        presc := 3;
      }
      trace := trace + [Wr(Osc8mPresc(presc))];
      trace := trace + [Wr(OnDemand(Osc8m, false))];
    }

    method Osc32kInit(f: nat, cal: nat)
      modifies this
      ensures trace == old(trace) + Osc32kEvents(f, cal)
    {
      if f != 0 {
        trace := trace + [Wr(Osc32kCtrl(cal, 6, true, true))];
      }
    }

    method XoscInit(f: nat)
      modifies this
      ensures trace == old(trace) + XoscEvents(f)
    {
      if f != 0 {
        var gain;
        if f <= MHZ_2 {
          gain := 0;
        } else if f <= MHZ_4 {
          gain := 1;
        } else if f <= MHZ_8 {
          gain := 2;
        } else if f <= MHZ_16 {
          gain := 3;
        } else {
          gain := 4;
        }
        var startup;
        if f <= MHZ_2 {
          startup := 7;
        } else if f <= MHZ_4 {
          startup := 8;
        } else if f <= MHZ_8 {
          startup := 6;
        } else if f <= MHZ_16 {
          startup := 5;
        } else {
          startup := 4;
        }
        trace := trace + [Wr(XoscCtrl(true, true, gain, startup))];
      }
    }

    method Xosc32kInit(f: nat)
      modifies this
      ensures trace == old(trace) + Xosc32kEvents(f)
    {
      if f != 0 {
        trace := trace + [Wr(Xosc32kCtrl(6, true, true, true))];
      }
    }

    method WaitFixedOscReady(c: ClockConfig)
      modifies this
      ensures trace == old(trace) + FixedOscReadyEvents(c)
    {
      if c.osc32kFreq != 0 {
        trace := trace + [WaitOscReady(Osc32k)];
      }
      if c.xoscFreq != 0 {
        trace := trace + [WaitOscReady(Xosc)];
      }
      if c.xosc32kFreq != 0 {
        trace := trace + [WaitOscReady(Xosc32k)];
      }
    }

    /** soc_sam0_configure_gclk: the rounded factor, DIVSEL for any factor passing the bit test. */
    method ConfigureGclk(id: nat, g: Gclk)
      requires GclkOk(g)
      modifies this
      ensures trace == old(trace) + GclkSetupEvents(id, g)
    {
      var divSel := false;
      if g.srcFreq != g.freq {
        var div := (g.srcFreq + g.freq / 2) / g.freq;
        assert div == RoundedDiv(g.srcFreq, g.freq) >= 1;
        if PassesPowerOfTwoTest(div) {
          divSel := true;
          div := Log2(div);
        }
        trace := trace + [Wr(GenDiv(id, WrapU32(div - 1)))];
        trace := trace + [SyncGclk];
      }
      trace := trace + [Wr(GenCtrl(id, g.src, true, true, divSel))];
      trace := trace + [SyncGclk];
    }

    /** One SOC_SAM0_SETUP_GCLK(n) block. */
    method SetupGclk(gclks: seq<Option<Gclk>>, n: nat)
      requires n < |gclks| && GclksOk(gclks)
      modifies this
      ensures trace == old(trace) + GclkEventsFor(gclks, n)
    {
      if gclks[n].Some? {
        ConfigureGclk(n, gclks[n].value);
      }
    }

    method DfllInit(d: Option<DfllCfg>, fuses: Fuses, waitLock: bool)
      requires d.Some? ==> DfllOk(d.value)
      modifies this
      ensures trace == old(trace) + DfllEvents(d, fuses, waitLock)
    {
      if d.Some? {
        trace := trace + [Wr(DFLL_ENABLE_ONLY)];
        trace := trace + [Wr(DfllVal(fuses.dfllCoarse, fuses.dfllFine))];
        var closedLoop := false;
        if d.value.reference.Some? {
          var r := d.value.reference.value;
          trace := trace + [Wr(ClkCtrlWrite(ClkCtrl(r.gen, true, CLKCTRL_ID_DFLL48)))];
          trace := trace + [SyncGclk];
          closedLoop := true;
          var mul := (d.value.freq + r.freq / 2) / r.freq;
          trace := trace + [Wr(DfllMul(31, 511, mul))];
        }
        trace := trace + [Wr(DfllCtrl(true, false, true, waitLock, closedLoop))];
      }
    }

    method FdpllInit(f: Option<FdpllCfg>)
      requires f.Some? ==> FdpllOk(f.value)
      modifies this
      ensures trace == old(trace) + FdpllEvents(f)
    {
      if f.Some? {
        var p := f.value;
        ghost var routing: seq<Event> :=
          if p.refClk == RefGclk then [Wr(ClkCtrlWrite(ClkCtrl(p.refGen, true, CLKCTRL_ID_FDPLL))), SyncGclk] else [];
        if p.refClk == RefGclk {
          trace := trace + [Wr(ClkCtrlWrite(ClkCtrl(p.refGen, true, CLKCTRL_ID_FDPLL)))];
          trace := trace + [SyncGclk];
        }
        assert trace == old(trace) + routing;
        var clkRef := p.refFreq;
        var divField := 0;
        if p.refClk == Ref1 {
          var pre := FdpllPreDividerAsWritten(p.refFreq, p.freq);
          clkRef := pre.refOut;
          divField := pre.div - 1;
        }
        assert DpllInput(clkRef, divField) == DpllInputOf(p);
        var ratio := FdpllRatio(p.freq, clkRef);
        trace := trace + [Wr(DpllRatio(LdrField(ratio.ldr), ratio.ldrFrac))];
        trace := trace + [Wr(DpllCtrlB(p.refClk, divField))];
        trace := trace + [Wr(DpllCtrlA(true, false))];
        assert trace == old(trace) + routing
          + [Wr(DpllRatio(LdrField(ratio.ldr), ratio.ldrFrac)), Wr(DpllCtrlB(p.refClk, divField)), Wr(DpllCtrlA(true, false))];
      }
    }

    method WaitProgrammableOscReady(d: Option<DfllCfg>, f: Option<FdpllCfg>)
      modifies this
      ensures trace == old(trace) + ProgrammableReadyEvents(d, f)
    {
      if d.Some? {
        if d.value.reference.Some? {
          trace := trace + [WaitDfllLock];
        }
        trace := trace + [WaitOscReady(Dfll48m)];
      }
      if f.Some? {
        trace := trace + [WaitDpllLock];
      }
    }

    method DividersInit(src: nat, cpu: nat)
      requires CpuDividerOk(src, cpu)
      modifies this
      ensures trace == old(trace) + DividerEvents(CpuDividerExponent(src, cpu))
    {
      var div := src / cpu;
      div := Log2(div);
      trace := trace + [Wr(PmDiv(Cpu, div))];
      trace := trace + [Wr(PmDiv(ApbA, div))];
      trace := trace + [Wr(PmDiv(ApbB, div))];
      trace := trace + [Wr(PmDiv(ApbC, div))];
    }

    /** One `#if` block of soc_sam0_osc_ondemand: set ONDEMAND on o when its guard b holds. */
    method SetOnDemandIf(b: bool, o: Osc)
      modifies this
      ensures trace == old(trace) + OnDemandIf(b, o)
    {
      if b {
        trace := trace + [Wr(OnDemand(o, true))];
      }
    }

    method OscOnDemand(c: ClockConfig)
      modifies this
      ensures trace == old(trace) + OnDemandEvents(c)
    {
      SetOnDemandIf(true, Osc8m);
      ghost var done := OnDemandIf(true, Osc8m);
      assert trace == old(trace) + done;
      SetOnDemandIf(c.osc32kFreq != 0, Osc32k);
      Extended(old(trace), done, OnDemandIf(c.osc32kFreq != 0, Osc32k));
      done := done + OnDemandIf(c.osc32kFreq != 0, Osc32k);
      SetOnDemandIf(c.xosc32kFreq != 0, Xosc32k);
      Extended(old(trace), done, OnDemandIf(c.xosc32kFreq != 0, Xosc32k));
      done := done + OnDemandIf(c.xosc32kFreq != 0, Xosc32k);
      SetOnDemandIf(c.xoscFreq != 0, Xosc);
      Extended(old(trace), done, OnDemandIf(c.xoscFreq != 0, Xosc));
      done := done + OnDemandIf(c.xoscFreq != 0, Xosc);
      SetOnDemandIf(c.dfll.Some?, Dfll48m);
      Extended(old(trace), done, OnDemandIf(c.dfll.Some?, Dfll48m));
      done := done + OnDemandIf(c.dfll.Some?, Dfll48m);
      SetOnDemandIf(c.fdpll.Some? && c.fdpll.value.refFreq != 0, Fdpll96m);
      Extended(old(trace), done, OnDemandIf(c.fdpll.Some? && c.fdpll.value.refFreq != 0, Fdpll96m));
    }

    /** The four fixed-oscillator helpers, in the order soc_sam0_clock_init calls them. */
    method FixedOscInit(c: ClockConfig)
      requires Osc8mPrescaler(c.osc8mFreq).Some?
      modifies this
      ensures trace == old(trace) + FixedOscEvents(c)
    {
      Osc8mInit(c.osc8mFreq);
      ghost var done := Osc8mEvents(c.osc8mFreq);
      Osc32kInit(c.osc32kFreq, c.fuses.osc32kCal);
      Extended(old(trace), done, Osc32kEvents(c.osc32kFreq, c.fuses.osc32kCal));
      done := done + Osc32kEvents(c.osc32kFreq, c.fuses.osc32kCal);
      XoscInit(c.xoscFreq);
      Extended(old(trace), done, XoscEvents(c.xoscFreq));
      done := done + XoscEvents(c.xoscFreq);
      Xosc32kInit(c.xosc32kFreq);
      Extended(old(trace), done, Xosc32kEvents(c.xosc32kFreq));
    }

    /** The SOC_SAM0_SETUP_GCLK(1) .. SOC_SAM0_SETUP_GCLK(8) blocks. */
    method SetupGclks1To8(gclks: seq<Option<Gclk>>)
      requires |gclks| == 9 && GclksOk(gclks)
      modifies this
      ensures trace == old(trace) + GclkRangeEvents(gclks, 1, 9)
    {
      SetupGclk(gclks, 1);
      ghost var done := GclkEventsFor(gclks, 1);
      SetupGclk(gclks, 2);
      Extended(old(trace), done, GclkEventsFor(gclks, 2));
      done := done + GclkEventsFor(gclks, 2);
      SetupGclk(gclks, 3);
      Extended(old(trace), done, GclkEventsFor(gclks, 3));
      done := done + GclkEventsFor(gclks, 3);
      SetupGclk(gclks, 4);
      Extended(old(trace), done, GclkEventsFor(gclks, 4));
      done := done + GclkEventsFor(gclks, 4);
      SetupGclk(gclks, 5);
      Extended(old(trace), done, GclkEventsFor(gclks, 5));
      done := done + GclkEventsFor(gclks, 5);
      SetupGclk(gclks, 6);
      Extended(old(trace), done, GclkEventsFor(gclks, 6));
      done := done + GclkEventsFor(gclks, 6);
      SetupGclk(gclks, 7);
      Extended(old(trace), done, GclkEventsFor(gclks, 7));
      done := done + GclkEventsFor(gclks, 7);
      SetupGclk(gclks, 8);
      Extended(old(trace), done, GclkEventsFor(gclks, 8));
      GclkRangeUnfolds(gclks);
    }

    /** soc_sam0_clock_init. */
    method ClockInit(c: ClockConfig)
      requires ValidConfig(c)
      modifies this
      ensures trace == old(trace) + BringUpTrace(c)
    {
      ghost var ss := Stages(c);
      FlashWaitInit(c.cpuFreq);
      ghost var done := ss[0];

      FixedOscInit(c);
      Extended(old(trace), done, ss[1]);
      done := done + ss[1];

      WaitFixedOscReady(c);
      Extended(old(trace), done, ss[2]);
      done := done + ss[2];

      SetupGclks1To8(c.gclks);
      Extended(old(trace), done, ss[3]);
      done := done + ss[3];

      // Stage 4: the DFLL, then the FDPLL, which may take a GCLK input.
      DfllInit(c.dfll, c.fuses, c.dfllWaitLock);
      Extended(old(trace), done, DfllEvents(c.dfll, c.fuses, c.dfllWaitLock));
      FdpllInit(c.fdpll);
      Extended(old(trace), done + DfllEvents(c.dfll, c.fuses, c.dfllWaitLock), FdpllEvents(c.fdpll));
      Extended(done, DfllEvents(c.dfll, c.fuses, c.dfllWaitLock), FdpllEvents(c.fdpll));
      Extended(old(trace), done, ss[4]);
      done := done + ss[4];

      WaitProgrammableOscReady(c.dfll, c.fdpll);
      Extended(old(trace), done, ss[5]);
      done := done + ss[5];

      // GCLK0 drives the CPU, so it is set up last.
      ConfigureGclk(0, c.gclks[0].value);
      Extended(old(trace), done, ss[6]);
      done := done + ss[6];

      DividersInit(c.gclks[0].value.srcFreq, c.cpuFreq);
      Extended(old(trace), done, ss[7]);
      done := done + ss[7];

      OscOnDemand(c);
      Extended(old(trace), done, ss[8]);
      FlattenNine(ss);
    }
  }

  /** Bookkeeping for the methods above: appending in two steps is appending once. */
  lemma Extended(start: seq<Event>, done: seq<Event>, step: seq<Event>)
    ensures start + done + step == start + (done + step)
  {
  }

  lemma GclkRangeUnfolds(gclks: seq<Option<Gclk>>)
    requires |gclks| == 9 && GclksOk(gclks)
    ensures GclkRangeEvents(gclks, 1, 9)
         == GclkEventsFor(gclks, 1) + GclkEventsFor(gclks, 2) + GclkEventsFor(gclks, 3)
          + GclkEventsFor(gclks, 4) + GclkEventsFor(gclks, 5) + GclkEventsFor(gclks, 6)
          + GclkEventsFor(gclks, 7) + GclkEventsFor(gclks, 8)
  {
    assert GclkRangeEvents(gclks, 1, 2) == GclkEventsFor(gclks, 1);
    assert GclkRangeEvents(gclks, 1, 3) == GclkRangeEvents(gclks, 1, 2) + GclkEventsFor(gclks, 2);
    assert GclkRangeEvents(gclks, 1, 4) == GclkRangeEvents(gclks, 1, 3) + GclkEventsFor(gclks, 3);
    assert GclkRangeEvents(gclks, 1, 5) == GclkRangeEvents(gclks, 1, 4) + GclkEventsFor(gclks, 4);
    assert GclkRangeEvents(gclks, 1, 6) == GclkRangeEvents(gclks, 1, 5) + GclkEventsFor(gclks, 5);
    assert GclkRangeEvents(gclks, 1, 7) == GclkRangeEvents(gclks, 1, 6) + GclkEventsFor(gclks, 6);
    assert GclkRangeEvents(gclks, 1, 8) == GclkRangeEvents(gclks, 1, 7) + GclkEventsFor(gclks, 7);
  }

  lemma FlattenStep(ss: seq<seq<Event>>, k: nat)
    requires k < |ss|
    ensures Flatten(ss[k..]) == ss[k] + Flatten(ss[k + 1..])
  {
    assert ss[k..][1..] == ss[k + 1..];
  }

  lemma FlattenNine(ss: seq<seq<Event>>)
    requires |ss| == 9
    ensures Flatten(ss) == ss[0] + ss[1] + ss[2] + ss[3] + ss[4] + ss[5] + ss[6] + ss[7] + ss[8]
  {
    assert Flatten(ss) == ss[0] + Flatten(ss[1..]);
    FlattenStep(ss, 1);
    Extended(ss[0], ss[1], Flatten(ss[2..]));
    FlattenStep(ss, 2);
    Extended(ss[0] + ss[1], ss[2], Flatten(ss[3..]));
    FlattenStep(ss, 3);
    Extended(ss[0] + ss[1] + ss[2], ss[3], Flatten(ss[4..]));
    FlattenStep(ss, 4);
    Extended(ss[0] + ss[1] + ss[2] + ss[3], ss[4], Flatten(ss[5..]));
    FlattenStep(ss, 5);
    Extended(ss[0] + ss[1] + ss[2] + ss[3] + ss[4], ss[5], Flatten(ss[6..]));
    FlattenStep(ss, 6);
    Extended(ss[0] + ss[1] + ss[2] + ss[3] + ss[4] + ss[5], ss[6], Flatten(ss[7..]));
    FlattenStep(ss, 7);
    Extended(ss[0] + ss[1] + ss[2] + ss[3] + ss[4] + ss[5] + ss[6], ss[7], Flatten(ss[8..]));
    FlattenStep(ss, 8);
    Extended(ss[0] + ss[1] + ss[2] + ss[3] + ss[4] + ss[5] + ss[6] + ss[7], ss[8], Flatten(ss[9..]));
    assert Flatten(ss[9..]) == [];
  }

}
