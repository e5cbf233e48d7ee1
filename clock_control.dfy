/**
 * The SAMD2x generic-clock controller nodes: one device per configured
 * generator GCLK0..GCLK3, each routing its generator to a peripheral
 * channel through the shared GCLK CLKCTRL register.
 */
module ClockControl {
  import opened Common
  import opened Sam0Soc

  /** GCLK0 feeds the CPU and comes up after the other generators. */
  const INIT_PRIORITY_GCLK_0: nat := 3
  const INIT_PRIORITY_GCLK_ANY: nat := 1

  /** A node's constant configuration: its generator's frequency and its generator id. */
  datatype GclkConfig = GclkConfig(clockFrequency: u32, genId: nat)

  /**
   * The CLKCTRL value a node writes for selector `req`: its own generator,
   * the low 16 bits of the selector as channel, CLKEN as asked.
   */
  function ClkCtrlFor(genId: nat, req: bv32, enable: bool): ClkCtrl
  {
    ClkCtrl(genId, enable, GclkOutId(req) as nat)
  }

  /** The GCLK register block the nodes share; CLKCTRL as the sequence of values written to it. */
  class GclkRegisters {
    var clkCtrlWrites: seq<ClkCtrl>

    constructor()
      ensures clkCtrlWrites == []
    {
      clkCtrlWrites := [];
    }

    /** What CLKCTRL last received, if anything. */
    function LastClkCtrl(): (r: Option<ClkCtrl>)
      reads this
      ensures r.None? <==> clkCtrlWrites == []
      ensures r.Some? ==> r.value == clkCtrlWrites[|clkCtrlWrites| - 1]
    {
      if clkCtrlWrites == [] then None else Some(clkCtrlWrites[|clkCtrlWrites| - 1])
    }
  }

  /** One generator's clock-control device. */
  class GclkNode {
    const cfg: GclkConfig
    const regs: GclkRegisters

    constructor(cfg: GclkConfig, regs: GclkRegisters)
      ensures this.cfg == cfg && this.regs == regs
    {
      this.cfg := cfg;
      this.regs := regs;
    }

    /** sam0_gclk_init does nothing and succeeds. */
    method Init() returns (rc: int)
      ensures rc == 0
    {
      rc := 0;
    }

    /**
     * sam0_gclk_on: one CLKCTRL write routing this node's generator to the
     * selected channel with CLKEN set. The selector must carry the
     * generic-clock tag.
     */
    method On(req: bv32) returns (rc: int)
      requires IsGclkOut(req)
      modifies regs
      ensures regs.clkCtrlWrites == old(regs.clkCtrlWrites) + [ClkCtrlFor(cfg.genId, req, true)]
      ensures regs.LastClkCtrl() == Some(ClkCtrlFor(cfg.genId, req, true))
      ensures rc == 0
    {
      var id := req & GCLK_OUT_ID_MASK;
      regs.clkCtrlWrites := regs.clkCtrlWrites + [ClkCtrl(cfg.genId, true, id as nat)];
      rc := 0;
    }

    /** sam0_gclk_off: the same CLKCTRL write with CLKEN clear. */
    method Off(req: bv32) returns (rc: int)
      requires IsGclkOut(req)
      modifies regs
      ensures regs.clkCtrlWrites == old(regs.clkCtrlWrites) + [ClkCtrlFor(cfg.genId, req, false)]
      ensures regs.LastClkCtrl() == Some(ClkCtrlFor(cfg.genId, req, false))
      ensures rc == 0
    {
      var id := req & GCLK_OUT_ID_MASK;
      regs.clkCtrlWrites := regs.clkCtrlWrites + [ClkCtrl(cfg.genId, false, id as nat)];
      rc := 0;
    }

    /** sam0_gclk_get_rate: the configured frequency, whatever the selector. */
    method GetRate(subsys: bv32) returns (rc: int, rate: u32)
      ensures rc == 0 && rate == cfg.clockFrequency
    {
      rate := cfg.clockFrequency;
      rc := 0;
    }
  }

  /** On and off write the same generator and channel and differ only in CLKEN. */
  lemma OnOffDifferOnlyInEnable(genId: nat, req: bv32)
    ensures ClkCtrlFor(genId, req, false) == ClkCtrlFor(genId, req, true).(clkEn := false)
    ensures ClkCtrlFor(genId, req, true) != ClkCtrlFor(genId, req, false)
  {
  }

  /**
   * A consumer that encodes channel `id` with the SoC selector gets exactly
   * that channel routed from this node's generator.
   */
  lemma OnRoutesEncodedChannel(genId: nat, id: bv32, enable: bool)
    requires id <= 0xFFFF
    ensures IsGclkOut(GclkSubsys(id))
    ensures ClkCtrlFor(genId, GclkSubsys(id), enable) == ClkCtrl(genId, enable, id as nat)
  {
    SubsysRoundTrip(id);
  }

  /**
   * Turning a channel on a second time writes the same value again, so
   * CLKCTRL ends where one call left it.
   */
  method OnIdempotent(node: GclkNode, req: bv32) returns (once: Option<ClkCtrl>, twice: Option<ClkCtrl>)
    requires IsGclkOut(req)
    modifies node.regs
    ensures once == twice == Some(ClkCtrlFor(node.cfg.genId, req, true))
  {
    var rc := node.On(req);
    once := node.regs.LastClkCtrl();
    rc := node.On(req);
    twice := node.regs.LastClkCtrl();
  }

  /** The init priority of the node for generator n (only GCLK0..GCLK3 have nodes). */
  function InitPriority(n: nat): (p: nat)
    requires n <= 3
    ensures n == 0 ==> p == INIT_PRIORITY_GCLK_0
    ensures n != 0 ==> p == INIT_PRIORITY_GCLK_ANY
  {
    if n == 0 then INIT_PRIORITY_GCLK_0 else INIT_PRIORITY_GCLK_ANY
  }

  /** The build-time condition that the system clock initialises after GCLK0. */
  predicate SystemClockPriorityOk(systemClockPriority: nat) {
    systemClockPriority > INIT_PRIORITY_GCLK_0
  }

  /**
   * GCLK0's node initialises after every other generator's node, and an
   * accepted system clock priority comes after all of them.
   */
  lemma InitOrder(systemClockPriority: nat)
    requires SystemClockPriorityOk(systemClockPriority)
    ensures forall n :: 1 <= n <= 3 ==> InitPriority(n) < InitPriority(0)
    ensures forall n :: 0 <= n <= 3 ==> InitPriority(n) < systemClockPriority
  {
  }
}
