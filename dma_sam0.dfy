/**
 * The SAM0 DMA controller driver: channel configuration into an in-memory
 * descriptor table and a callback table, descriptor reload, channel
 * start/stop, and the interrupt handler's decode and dispatch.
 *
 * The driver is built in one of two register layouts: one where a channel
 * is first selected through CHID and then programmed through shared
 * CHCTRLA/CHCTRLB (SAMD2x), and one with a register block per channel
 * (CHCTRLA with TRIGSRC/TRIGACT/BURSTLEN, CHPRILVL). `Variant` picks one.
 * Either way the per-channel state the driver programs is modelled as a
 * `ChannelRegs` record.
 */
module DmaSam0 {
  import opened Common

  // ---------------------------------------------------------------------
  // Register constants of the SAMD21 DMAC header

  /** INTPEND.ID: the channel whose interrupt is pending, bits 0..3. */
  const INTPEND_ID_MASK: bv16 := 0x000F
  const INTPEND_ID_POS: nat := 0
  /** INTPEND.TERR: transfer error, bit 8. */
  const INTPEND_TERR: bv16 := 0x0100
  /** INTPEND.TCMPL: transfer complete, bit 9. */
  const INTPEND_TCMPL: bv16 := 0x0200
  /** The error code the handler hands a callback on a transfer error: -DMAC_INTPEND_TERR. */
  const TERR_ERROR_CODE: int := -0x100

  /** BTCTRL.BEATSIZE codes. */
  const BEATSIZE_BYTE: nat := 0
  const BEATSIZE_HWORD: nat := 1
  const BEATSIZE_WORD: nat := 2

  /** The longest burst the per-channel layout accepts. */
  const MAX_BURST_LENGTH: nat := 16

  // ---------------------------------------------------------------------
  // Requests

  datatype Variant = ChannelIdSelect | PerChannelRegs

  datatype Direction = MemoryToMemory | MemoryToPeripheral | PeripheralToMemory

  datatype AddrAdj = Increment | Decrement | NoChange

  /** The single block of a transfer. */
  datatype BlockConfig = BlockConfig(
    blockSize: u32, sourceAddress: u32, destAddress: u32,
    sourceAddrAdj: AddrAdj, destAddrAdj: AddrAdj)

  /** A channel configuration request; a callback is a function identity, None for NULL. */
  datatype DmaConfig = DmaConfig(
    dmaSlot: nat, channelDirection: Direction, blockCount: nat, channelPriority: nat,
    sourceBurstLength: nat, destBurstLength: nat, errorCallbackEn: bool,
    sourceDataSize: nat, destDataSize: nat,
    dmaCallback: Option<nat>, callbackArg: nat, headBlock: BlockConfig)

  /** The driver's return codes: 0, -EINVAL, -ENOTSUP. */
  datatype Status = Ok | Inval | NotSup

  // ---------------------------------------------------------------------
  // State

  /** The BTCTRL fields the driver sets; the rest of the register stays zero. */
  datatype BtCtrl = BtCtrl(valid: bool, beatSize: nat, srcInc: bool, dstInc: bool)

  /** A transfer descriptor in the table the DMAC reads. */
  datatype Descriptor = Descriptor(btctrl: BtCtrl, btcnt: nat, srcAddr: u32, dstAddr: u32, descAddr: u32)

  const ZERO_DESCRIPTOR: Descriptor := Descriptor(BtCtrl(false, 0, false, false), 0, 0, 0, 0)

  /** An entry of the callback table. */
  datatype ChannelData = ChannelData(cb: Option<nat>, cbArg: nat)

  datatype TrigAct = Block | Beat | Burst | Transaction

  /** The channel's control state: enable, trigger action and source, priority level, burst, interrupt enables. */
  datatype ChannelRegs = ChannelRegs(
    enable: bool, trigAct: TrigAct, trigSrc: nat, lvl: nat, burstLen: nat,
    intTcmpl: bool, intTerr: bool)

  const ZERO_REGS: ChannelRegs := ChannelRegs(false, Block, 0, 0, 0, false, false)

  /** One channel's slice of the driver state. */
  datatype ChannelState = ChannelState(regs: ChannelRegs, desc: Descriptor, data: ChannelData)

  datatype ConfigOutcome = ConfigOutcome(status: Status, state: ChannelState)

  /** One invocation of a channel callback. */
  datatype CallbackCall = CallbackCall(cb: nat, arg: nat, channel: nat, error: int)

  // ---------------------------------------------------------------------
  // Beat sizes and addresses

  /** The BEATSIZE code for a data size in bytes; only 1, 2 and 4 have one. */
  function BeatSizeCode(size: nat): (r: Option<nat>)
    ensures r.Some? <==> size == 1 || size == 2 || size == 4
    ensures r.Some? ==> r.value <= BEATSIZE_WORD
  {
    if size == 1 then Some(BEATSIZE_BYTE)
    else if size == 2 then Some(BEATSIZE_HWORD)
    else if size == 4 then Some(BEATSIZE_WORD)
    else None
  }

  /** The bytes per beat a BEATSIZE code stands for; the reserved code 3 and above have none. */
  function BeatBytes(code: nat): (r: Option<nat>)
    ensures r.Some? <==> code <= BEATSIZE_WORD
  {
    if code == BEATSIZE_BYTE then Some(1)
    else if code == BEATSIZE_HWORD then Some(2)
    else if code == BEATSIZE_WORD then Some(4)
    else None
  }

  /** BEATSIZE codes and data sizes correspond one to one. */
  lemma BeatSizeRoundTrip(size: nat, code: nat)
    ensures BeatSizeCode(size) == Some(code) <==> BeatBytes(code) == Some(size)
  {
  }

  /**
   * The address a descriptor holds for a block: the DMAC counts addresses
   * down from the end of the block, so an incrementing side stores start
   * plus size (wrapping in 32 bits), a fixed side the address itself.
   */
  function EndAddress(addr: u32, size: u32, inc: bool): u32
  {
    if inc then WrapU32(addr + size) else addr
  }

  // ---------------------------------------------------------------------
  // dma_sam0_config

  /** The trigger action a request's direction selects in each layout. */
  function TriggerAction(v: Variant, d: Direction): TrigAct {
    if d == MemoryToMemory then Transaction
    else if v == ChannelIdSelect then Beat
    else Burst
  }

  /** The checks config makes before taking the lock. */
  predicate EarlyChecksPass(chNum: nat, trigNum: nat, channel: nat, cfg: DmaConfig) {
    channel < chNum && cfg.blockCount <= 1 && cfg.dmaSlot < trigNum
  }

  /** The checks config makes after it has started programming the channel. */
  predicate LaterChecksPass(v: Variant, lvlNum: nat, cfg: DmaConfig) {
    cfg.channelPriority < lvlNum
    && (v == PerChannelRegs ==>
          cfg.sourceBurstLength == cfg.destBurstLength && cfg.sourceBurstLength <= MAX_BURST_LENGTH)
    && cfg.sourceDataSize == cfg.destDataSize
    && (cfg.sourceDataSize == 1 || cfg.sourceDataSize == 2 || cfg.sourceDataSize == 4)
    && cfg.headBlock.sourceAddrAdj != Decrement
    && cfg.headBlock.destAddrAdj != Decrement
  }

  /** The return code of config. */
  function ConfigStatus(v: Variant, chNum: nat, trigNum: nat, lvlNum: nat, channel: nat, cfg: DmaConfig): (r: Status)
    ensures r == Ok <==> EarlyChecksPass(chNum, trigNum, channel, cfg) && LaterChecksPass(v, lvlNum, cfg)
    ensures r == NotSup <==> channel < chNum && cfg.blockCount > 1
  {
    if channel >= chNum then Inval
    else if cfg.blockCount > 1 then NotSup
    else if cfg.dmaSlot >= trigNum then Inval
    else if LaterChecksPass(v, lvlNum, cfg) then Ok
    else Inval
  }

  /** The descriptor a successful config leaves for the request's block. */
  function ConfiguredDescriptor(cfg: DmaConfig): Descriptor
    requires BeatSizeCode(cfg.sourceDataSize).Some?
  {
    var b := cfg.headBlock;
    Descriptor(
      BtCtrl(true, BeatSizeCode(cfg.sourceDataSize).value, b.sourceAddrAdj == Increment, b.destAddrAdj == Increment),
      b.blockSize / cfg.sourceDataSize,
      EndAddress(b.sourceAddress, b.blockSize, b.sourceAddrAdj == Increment),
      EndAddress(b.destAddress, b.blockSize, b.destAddrAdj == Increment),
      0)
  }

  datatype RegsOutcome = RegsOutcome(ok: bool, regs: ChannelRegs)

  /**
   * Config's register programming: the trigger first (which disables the
   * channel), then the priority check and level, in the per-channel
   * layout the burst checks and length, then the interrupt enables.
   */
  function ConfigRegs(v: Variant, lvlNum: nat, regs: ChannelRegs, cfg: DmaConfig): (r: RegsOutcome)
    ensures !r.regs.enable && r.regs.trigSrc == cfg.dmaSlot
    ensures r.regs.trigAct == TriggerAction(v, cfg.channelDirection)
    ensures r.ok <==> cfg.channelPriority < lvlNum
                      && (v == PerChannelRegs ==>
                            cfg.sourceBurstLength == cfg.destBurstLength && cfg.sourceBurstLength <= MAX_BURST_LENGTH)
    ensures r.ok ==> r.regs.lvl == cfg.channelPriority && r.regs.intTcmpl && r.regs.intTerr == !cfg.errorCallbackEn
    ensures r.ok && v == PerChannelRegs ==> r.regs.burstLen == if cfg.sourceBurstLength > 0 then cfg.sourceBurstLength - 1 else 0
    ensures v == ChannelIdSelect ==> r.regs.burstLen == regs.burstLen
  {
    var trig := if v == ChannelIdSelect
      then regs.(enable := false, trigAct := TriggerAction(v, cfg.channelDirection), trigSrc := cfg.dmaSlot, lvl := 0)
      else regs.(enable := false, trigAct := TriggerAction(v, cfg.channelDirection), trigSrc := cfg.dmaSlot, burstLen := 0);
    if cfg.channelPriority >= lvlNum then RegsOutcome(false, trig)
    else
      var prio := trig.(lvl := cfg.channelPriority);
      if v == PerChannelRegs
         && (cfg.sourceBurstLength != cfg.destBurstLength || cfg.sourceBurstLength > MAX_BURST_LENGTH)
      then RegsOutcome(false, prio)
      else
        var burst := if v == PerChannelRegs && cfg.sourceBurstLength > 0
          then prio.(burstLen := cfg.sourceBurstLength - 1) else prio;
        RegsOutcome(true, burst.(intTcmpl := true, intTerr := !cfg.errorCallbackEn))
  }

  datatype DescOutcome = DescOutcome(ok: bool, desc: Descriptor)

  /**
   * Config's descriptor programming, field by field as it happens in
   * memory: the data-size checks touch nothing, BTCNT and DESCADDR are
   * written before the source adjustment is checked and SRCADDR before the
   * destination's, and BTCTRL only once everything has passed.
   */
  function ConfigDescriptor(d: Descriptor, cfg: DmaConfig): (r: DescOutcome)
    ensures r.ok <==> cfg.sourceDataSize == cfg.destDataSize && BeatSizeCode(cfg.sourceDataSize).Some?
                      && cfg.headBlock.sourceAddrAdj != Decrement && cfg.headBlock.destAddrAdj != Decrement
    ensures r.ok ==> r.desc == ConfiguredDescriptor(cfg)
    ensures !r.ok ==> r.desc.btctrl == d.btctrl
  {
    var b := cfg.headBlock;
    if cfg.sourceDataSize != cfg.destDataSize || BeatSizeCode(cfg.sourceDataSize).None? then DescOutcome(false, d)
    else
      var counted := d.(btcnt := b.blockSize / cfg.sourceDataSize, descAddr := 0);
      if b.sourceAddrAdj == Decrement then DescOutcome(false, counted)
      else
        var srcInc := b.sourceAddrAdj == Increment;
        var withSrc := counted.(srcAddr := EndAddress(b.sourceAddress, b.blockSize, srcInc));
        if b.destAddrAdj == Decrement then DescOutcome(false, withSrc)
        else
          var dstInc := b.destAddrAdj == Increment;
          DescOutcome(true, withSrc.(dstAddr := EndAddress(b.destAddress, b.blockSize, dstInc),
                                     btctrl := BtCtrl(true, BeatSizeCode(cfg.sourceDataSize).value, srcInc, dstInc)))
  }

  /**
   * What config does to one channel once the early checks have passed, on
   * every exit. The channel ends disabled with the new trigger whatever
   * happens; the callback entry and BTCTRL change only on success.
   */
  function ConfigChannel(v: Variant, lvlNum: nat, st: ChannelState, cfg: DmaConfig): (r: ConfigOutcome)
    ensures r.status == Ok || r.status == Inval
    ensures r.status == Ok <==> LaterChecksPass(v, lvlNum, cfg)
    ensures !r.state.regs.enable && r.state.regs.trigSrc == cfg.dmaSlot
    ensures r.state.regs.trigAct == TriggerAction(v, cfg.channelDirection)
    ensures r.status == Ok ==>
      r.state.desc == ConfiguredDescriptor(cfg)
      && r.state.data == ChannelData(cfg.dmaCallback, cfg.callbackArg)
      && r.state.regs.lvl == cfg.channelPriority
      && r.state.regs.intTcmpl && r.state.regs.intTerr == !cfg.errorCallbackEn
    ensures r.status != Ok ==> r.state.data == st.data && r.state.desc.btctrl == st.desc.btctrl
  {
    var rr := ConfigRegs(v, lvlNum, st.regs, cfg);
    if !rr.ok then ConfigOutcome(Inval, st.(regs := rr.regs))
    else
      var dd := ConfigDescriptor(st.desc, cfg);
      if !dd.ok then ConfigOutcome(Inval, ChannelState(rr.regs, dd.desc, st.data))
      else ConfigOutcome(Ok, ChannelState(rr.regs, dd.desc, ChannelData(cfg.dmaCallback, cfg.callbackArg)))
  }

  /**
   * The descriptor a successful config leaves describes the whole block:
   * it is valid, its beat size is the request's data size, its beat count
   * covers the block (exactly when the size divides it), it is the last
   * descriptor, and each address is the block end where that side
   * increments.
   */
  lemma ConfiguredDescriptorDescribesBlock(cfg: DmaConfig)
    requires BeatSizeCode(cfg.sourceDataSize).Some?
    ensures var d := ConfiguredDescriptor(cfg);
            var n := cfg.sourceDataSize;
            d.btctrl.valid && d.descAddr == 0
            && BeatBytes(d.btctrl.beatSize) == Some(n)
            && d.btcnt * n <= cfg.headBlock.blockSize < (d.btcnt + 1) * n
            && (cfg.headBlock.blockSize % n == 0 ==> d.btcnt * n == cfg.headBlock.blockSize)
            && (d.btctrl.srcInc <==> cfg.headBlock.sourceAddrAdj == Increment)
            && (d.btctrl.dstInc <==> cfg.headBlock.destAddrAdj == Increment)
  {
    var n := cfg.sourceDataSize;
    var s := cfg.headBlock.blockSize;
    assert s == (s / n) * n + s % n;
  }

  /**
   * Config writes BTCNT, DESCADDR and SRCADDR before it looks at the
   * destination's address adjustment: a request failing only there leaves
   * those fields rewritten under the descriptor's old BTCTRL, VALID bit
   * included.
   */
  lemma ConfigFailureRewritesCount(d: Descriptor, cfg: DmaConfig)
    requires cfg.sourceDataSize == cfg.destDataSize && BeatSizeCode(cfg.sourceDataSize).Some?
    requires cfg.headBlock.sourceAddrAdj != Decrement && cfg.headBlock.destAddrAdj == Decrement
    ensures var r := ConfigDescriptor(d, cfg);
            !r.ok && r.desc.btctrl == d.btctrl && r.desc.dstAddr == d.dstAddr
            && r.desc.btcnt == cfg.headBlock.blockSize / cfg.sourceDataSize && r.desc.descAddr == 0
            && r.desc.srcAddr == EndAddress(cfg.headBlock.sourceAddress, cfg.headBlock.blockSize,
                                            cfg.headBlock.sourceAddrAdj == Increment)
  {
  }

  // ---------------------------------------------------------------------
  // dma_sam0_reload

  /**
   * Reload re-targets a descriptor: the beat count from the new size and
   * the stored beat size, the addresses from the stored increment flags.
   * Nothing comes of a reserved beat-size code.
   */
  function ReloadDescriptor(d: Descriptor, src: u32, dst: u32, size: u32): (r: Option<Descriptor>)
    ensures r.None? <==> d.btctrl.beatSize > BEATSIZE_WORD
    ensures r.Some? ==> r.value.btctrl == d.btctrl && r.value.descAddr == d.descAddr
  {
    match BeatBytes(d.btctrl.beatSize)
    case None => None
    case Some(n) =>
      Some(d.(btcnt := size / n, srcAddr := EndAddress(src, size, d.btctrl.srcInc),
              dstAddr := EndAddress(dst, size, d.btctrl.dstInc)))
  }

  /** The request config would have needed to leave the same descriptor for another block. */
  function Retargeted(cfg: DmaConfig, src: u32, dst: u32, size: u32): DmaConfig {
    cfg.(headBlock := cfg.headBlock.(blockSize := size, sourceAddress := src, destAddress := dst))
  }

  /**
   * Reloading a configured channel gives exactly the descriptor a config
   * of the same request for the new block would have given.
   */
  lemma ReloadAgreesWithConfig(cfg: DmaConfig, src: u32, dst: u32, size: u32)
    requires BeatSizeCode(cfg.sourceDataSize).Some?
    ensures ReloadDescriptor(ConfiguredDescriptor(cfg), src, dst, size)
            == Some(ConfiguredDescriptor(Retargeted(cfg, src, dst, size)))
  {
    var code := BeatSizeCode(cfg.sourceDataSize).value;
    assert BeatBytes(code) == Some(cfg.sourceDataSize);
  }

  /** Reloading twice with the same block is the same as reloading once. */
  lemma ReloadIdempotent(d: Descriptor, src: u32, dst: u32, size: u32)
    requires ReloadDescriptor(d, src, dst, size).Some?
    ensures ReloadDescriptor(ReloadDescriptor(d, src, dst, size).value, src, dst, size)
            == ReloadDescriptor(d, src, dst, size)
  {
  }

  // ---------------------------------------------------------------------
  // dma_sam0_isr

  /** The channel an INTPEND value names. */
  function IsrChannel(pend: bv16): (ch: nat)
    ensures ch < 16
  {
    ((pend & INTPEND_ID_MASK) >> INTPEND_ID_POS) as nat
  }

  /**
   * The error code the handler reports for an INTPEND value: a transfer
   * error wins over completion; with neither flag there is nothing to report.
   */
  function IsrError(pend: bv16): (r: Option<int>)
    ensures pend & INTPEND_TERR != 0 ==> r == Some(TERR_ERROR_CODE)
    ensures pend & INTPEND_TERR == 0 && pend & INTPEND_TCMPL != 0 ==> r == Some(0)
    ensures pend & INTPEND_TERR == 0 && pend & INTPEND_TCMPL == 0 ==> r.None?
  {
    if pend & INTPEND_TERR != 0 then Some(TERR_ERROR_CODE)
    else if pend & INTPEND_TCMPL != 0 then Some(0)
    else None
  }

  /** The callbacks one interrupt runs, given the callback table entry of the pending channel. */
  function IsrCalls(pend: bv16, data: ChannelData): (r: seq<CallbackCall>)
    ensures |r| <= 1
    ensures |r| == 1 <==> data.cb.Some? && IsrError(pend).Some?
    ensures |r| == 1 ==> r[0] == CallbackCall(data.cb.value, data.cbArg, IsrChannel(pend), IsrError(pend).value)
  {
    match IsrError(pend)
    case None => []
    case Some(err) =>
      if data.cb.Some? then [CallbackCall(data.cb.value, data.cbArg, IsrChannel(pend), err)] else []
  }

  /**
   * The handler decodes what the controller reports: for channel ch with
   * an error flag it calls back with -TERR for that channel, and with a
   * completion flag alone it calls back with 0.
   */
  lemma IsrDecodesPending(ch: bv16, terr: bool, tcmpl: bool)
    requires ch < 16
    ensures var pend := ch | (if terr then INTPEND_TERR else 0) | (if tcmpl then INTPEND_TCMPL else 0);
            IsrChannel(pend) == ch as nat
            && IsrError(pend) == (if terr then Some(TERR_ERROR_CODE) else if tcmpl then Some(0) else None)
  {
  }

  // ---------------------------------------------------------------------
  // The driver

  class Dmac {
    const variant: Variant
    /** DMAC_CH_NUM, DMAC_TRIG_NUM and DMAC_LVL_NUM of the part. */
    const chNum: nat
    const trigNum: nat
    const lvlNum: nat
    const descriptors: array<Descriptor>
    const channels: array<ChannelData>
    const chRegs: array<ChannelRegs>
    /** Values written to SWTRIGCTRL, in order. */
    var swTriggers: seq<nat>
    /** Values written back to INTPEND to acknowledge, in order. */
    var intPendAcks: seq<bv16>
    /** Callback invocations, in order. */
    var callbackLog: seq<CallbackCall>

    predicate Valid()
    {
      descriptors.Length == chNum && channels.Length == chNum && chRegs.Length == chNum
    }

    /** Every stored BEATSIZE is one of the three codes config writes. */
    predicate BeatSizesValid()
      reads descriptors
    {
      forall i :: 0 <= i < descriptors.Length ==> descriptors[i].btctrl.beatSize <= BEATSIZE_WORD
    }

    /** The zero-initialised driver data and a reset controller. */
    constructor(variant: Variant, chNum: nat, trigNum: nat, lvlNum: nat)
      ensures Valid() && BeatSizesValid()
      ensures this.variant == variant && this.chNum == chNum && this.trigNum == trigNum && this.lvlNum == lvlNum
      ensures fresh(descriptors) && fresh(channels) && fresh(chRegs)
      ensures forall i :: 0 <= i < chNum ==>
        descriptors[i] == ZERO_DESCRIPTOR && channels[i] == ChannelData(None, 0) && chRegs[i] == ZERO_REGS
      ensures swTriggers == [] && intPendAcks == [] && callbackLog == []
    {
      this.variant := variant;
      this.chNum := chNum;
      this.trigNum := trigNum;
      this.lvlNum := lvlNum;
      descriptors := new Descriptor[chNum](_ => ZERO_DESCRIPTOR);
      channels := new ChannelData[chNum](_ => ChannelData(None, 0));
      chRegs := new ChannelRegs[chNum](_ => ZERO_REGS);
      swTriggers := [];
      intPendAcks := [];
      callbackLog := [];
    }

    /**
     * dma_sam0_config. The three early checks leave everything untouched;
     * past them the channel's registers, descriptor and callback entry
     * become what ConfigChannel says, and no other channel changes.
     */
    method Config(channel: nat, config: DmaConfig) returns (rc: Status)
      requires Valid()
      modifies descriptors, channels, chRegs
      ensures rc == ConfigStatus(variant, chNum, trigNum, lvlNum, channel, config)
      ensures !EarlyChecksPass(chNum, trigNum, channel, config) ==>
        descriptors[..] == old(descriptors[..]) && channels[..] == old(channels[..]) && chRegs[..] == old(chRegs[..])
      ensures EarlyChecksPass(chNum, trigNum, channel, config) ==>
        var out := ConfigChannel(variant, lvlNum,
                                 ChannelState(old(chRegs[channel]), old(descriptors[channel]), old(channels[channel])),
                                 config);
        chRegs[..] == old(chRegs[..])[channel := out.state.regs]
        && descriptors[..] == old(descriptors[..])[channel := out.state.desc]
        && channels[..] == old(channels[..])[channel := out.state.data]
      ensures old(BeatSizesValid()) ==> BeatSizesValid()
    {
      if channel >= chNum {
        return Inval;
      }
      if config.blockCount > 1 {
        return NotSup;
      }
      if config.dmaSlot >= trigNum {
        return Inval;
      }
      // From here to the end the driver holds irq_lock.
      var regsOk := ProgramRegs(channel, config);
      if !regsOk {
        return Inval;
      }
      var descOk := ProgramDescriptor(channel, config);
      if !descOk {
        return Inval;
      }
      channels[channel] := ChannelData(config.dmaCallback, config.callbackArg);
      return Ok;
    }

    /** The register half of config: CHCTRLA/CHCTRLB (or CHPRILVL) and the interrupt enables. */
    method ProgramRegs(channel: nat, config: DmaConfig) returns (ok: bool)
      requires Valid() && channel < chNum
      modifies chRegs
      ensures var out := ConfigRegs(variant, lvlNum, old(chRegs[channel]), config);
              ok == out.ok && chRegs[..] == old(chRegs[..])[channel := out.regs]
    {
      var regs := chRegs[channel];
      if variant == ChannelIdSelect {
        regs := regs.(enable := false);
        regs := regs.(trigAct := TriggerAction(variant, config.channelDirection), trigSrc := config.dmaSlot, lvl := 0);
      } else {
        regs := regs.(enable := false, trigAct := TriggerAction(variant, config.channelDirection),
                      trigSrc := config.dmaSlot, burstLen := 0);
      }
      chRegs[channel] := regs;
      if config.channelPriority >= lvlNum {
        return false;
      }
      regs := regs.(lvl := config.channelPriority);
      chRegs[channel] := regs;
      if variant == PerChannelRegs {
        if config.sourceBurstLength != config.destBurstLength {
          return false;
        }
        if config.sourceBurstLength > MAX_BURST_LENGTH {
          return false;
        }
        if config.sourceBurstLength > 0 {
          regs := regs.(burstLen := config.sourceBurstLength - 1);
          chRegs[channel] := regs;
        }
      }
      regs := regs.(intTcmpl := true);
      if !config.errorCallbackEn {
        regs := regs.(intTerr := true);
      } else {
        regs := regs.(intTerr := false);
      }
      chRegs[channel] := regs;
      return true;
    }

    /** The descriptor half of config: beat size, BTCNT, DESCADDR, the addresses, then BTCTRL. */
    method ProgramDescriptor(channel: nat, config: DmaConfig) returns (ok: bool)
      requires Valid() && channel < chNum
      modifies descriptors
      ensures var out := ConfigDescriptor(old(descriptors[channel]), config);
              ok == out.ok && descriptors[channel] == out.desc
      ensures forall i :: 0 <= i < descriptors.Length && i != channel ==> descriptors[i] == old(descriptors[i])
    {
      if config.sourceDataSize != config.destDataSize {
        return false;
      }
      var beatSize: nat;
      if config.sourceDataSize == 1 {
        beatSize := BEATSIZE_BYTE;
      } else if config.sourceDataSize == 2 {
        beatSize := BEATSIZE_HWORD;
      } else if config.sourceDataSize == 4 {
        beatSize := BEATSIZE_WORD;
      } else {
        return false;
      }
      var block := config.headBlock;
      descriptors[channel] := descriptors[channel].(btcnt := block.blockSize / config.sourceDataSize);
      descriptors[channel] := descriptors[channel].(descAddr := 0);

      var srcInc := false;
      match block.sourceAddrAdj {
        case Increment =>
          descriptors[channel] := descriptors[channel].(srcAddr := WrapU32(block.sourceAddress + block.blockSize));
          srcInc := true;
        case NoChange =>
          descriptors[channel] := descriptors[channel].(srcAddr := block.sourceAddress);
        case Decrement =>
          return false;
      }
      var dstInc := false;
      match block.destAddrAdj {
        case Increment =>
          descriptors[channel] := descriptors[channel].(dstAddr := WrapU32(block.destAddress + block.blockSize));
          dstInc := true;
        case NoChange =>
          descriptors[channel] := descriptors[channel].(dstAddr := block.destAddress);
        case Decrement =>
          return false;
      }
      descriptors[channel] := descriptors[channel].(btctrl := BtCtrl(true, beatSize, srcInc, dstInc));
      return true;
    }

    /**
     * dma_sam0_start: enables the channel and, when the channel has no
     * peripheral trigger (TRIGSRC 0), starts it by software with bit
     * `channel` of SWTRIGCTRL.
     */
    method Start(channel: nat) returns (rc: Status)
      requires Valid() && channel < chNum
      modifies this, chRegs
      ensures chRegs[..] == old(chRegs[..])[channel := old(chRegs[channel]).(enable := true)]
      ensures swTriggers == old(swTriggers) + (if old(chRegs[channel]).trigSrc == 0 then [Pow2(channel)] else [])
      ensures intPendAcks == old(intPendAcks) && callbackLog == old(callbackLog)
      ensures rc == Ok
    {
      chRegs[channel] := chRegs[channel].(enable := true);
      if chRegs[channel].trigSrc == 0 {
        swTriggers := swTriggers + [Pow2(channel)];
      }
      rc := Ok;
    }

    /** dma_sam0_stop: clears the channel's enable and nothing else. */
    method Stop(channel: nat) returns (rc: Status)
      requires Valid() && channel < chNum
      modifies chRegs
      ensures chRegs[..] == old(chRegs[..])[channel := old(chRegs[channel]).(enable := false)]
      ensures rc == Ok
    {
      chRegs[channel] := chRegs[channel].(enable := false);
      rc := Ok;
    }

    /**
     * dma_sam0_reload: re-targets the channel's descriptor as
     * ReloadDescriptor says, or fails with the descriptor untouched on a
     * reserved beat size, which cannot be stored while BeatSizesValid holds.
     */
    method Reload(channel: nat, src: u32, dst: u32, size: u32) returns (rc: Status)
      requires Valid() && channel < chNum
      modifies descriptors
      ensures rc == Ok || rc == Inval
      ensures rc == Ok <==> ReloadDescriptor(old(descriptors[channel]), src, dst, size).Some?
      ensures rc == Ok ==>
        descriptors[..] == old(descriptors[..])[channel := ReloadDescriptor(old(descriptors[channel]), src, dst, size).value]
      ensures rc == Inval ==> descriptors[..] == old(descriptors[..])
      ensures old(BeatSizesValid()) ==> rc == Ok && BeatSizesValid()
    {
      var d := descriptors[channel];
      if d.btctrl.beatSize == BEATSIZE_BYTE {
        d := d.(btcnt := size);
      } else if d.btctrl.beatSize == BEATSIZE_HWORD {
        d := d.(btcnt := size / 2);
      } else if d.btctrl.beatSize == BEATSIZE_WORD {
        d := d.(btcnt := size / 4);
      } else {
        return Inval;
      }
      if d.btctrl.srcInc {
        d := d.(srcAddr := WrapU32(src + size));
      } else {
        d := d.(srcAddr := src);
      }
      if d.btctrl.dstInc {
        d := d.(dstAddr := WrapU32(dst + size));
      } else {
        d := d.(dstAddr := dst);
      }
      descriptors[channel] := d;
      return Ok;
    }

    /**
     * dma_sam0_isr for one INTPEND value: acknowledge it, then run the
     * pending channel's callback, if it has one, as IsrCalls says.
     */
    method Isr(pend: bv16)
      requires Valid() && IsrChannel(pend) < chNum
      modifies this
      ensures intPendAcks == old(intPendAcks) + [pend]
      ensures callbackLog == old(callbackLog) + IsrCalls(pend, channels[IsrChannel(pend)])
      ensures swTriggers == old(swTriggers)
    {
      intPendAcks := intPendAcks + [pend];
      var channel := ((pend & INTPEND_ID_MASK) >> INTPEND_ID_POS) as nat;
      var chdata := channels[channel];
      if pend & INTPEND_TERR != 0 {
        if chdata.cb.Some? {
          callbackLog := callbackLog + [CallbackCall(chdata.cb.value, chdata.cbArg, channel, TERR_ERROR_CODE)];
        }
      } else if pend & INTPEND_TCMPL != 0 {
        if chdata.cb.Some? {
          callbackLog := callbackLog + [CallbackCall(chdata.cb.value, chdata.cbArg, channel, 0)];
        }
      }
    }
  }
}
