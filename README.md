# SAMD2x clocks and SAM0 DMA, modelled in Dafny

This project models four pieces of the Zephyr port for Microchip SAM0 parts.
Each one is a small amount of integer and bit-field logic over controller
registers.

- **Clock-tree bring-up for SAMD2x (`soc_sam0_clock_init`).** It sets the
  flash wait states. It starts the fixed oscillators: OSC8M, OSC32K, XOSC
  and XOSC32K. It programs generic clock generators GCLK1..GCLK8. It
  brings up the DFLL48M and the FDPLL96M, then GCLK0, the CPU clock. It
  divides the CPU and APB buses. Last, it switches every enabled
  oscillator to ONDEMAND.
  - `ClockMath` holds the arithmetic. That covers the rounded generator
    divider and its DIVSEL encoding, the FDPLL reference pre-divider and
    LDR/LDRFRAC ratio, the DFLL multiplier, the CPU divider exponent, and
    the frequency threshold tables.
  - `ClockBringUp` holds the register sequence. The class
    `ClockRegisters` appends one `Event` per register write or hardware
    wait to its `trace`. Each method is proved to append exactly the
    events of a specification function. The build-time devicetree values
    form a `ClockConfig` record. The trace follows the code's own
    generator divider and FDPLL pre-divider; the corrected ones that
    Findings rows 1 and 3 describe stand beside them, with their
    properties proved.
  - `BringUpOrder` proves what the order of the sequence promises, over
    the whole trace.
- **The GCLK clock-control driver (`ClockControl`).** It has one device per
  generator GCLK0..GCLK3. `on` and `off` write the shared CLKCTRL register,
  modelled as the sequence of values written to it. `get_rate` returns
  the configured frequency. The module also covers the init priorities.
- **The clock-subsystem selector of the SAMD20 and SAMD21 SoC headers
  (`Sam0Soc`).** It puts a type tag in bits 24..31 and a channel id in
  bits 0..15 of one 32-bit word. Both headers define the same masks, tag
  and encoder.
- **The SAM0 DMA driver (`DmaSam0`).** `Dmac` is a class. It has the
  descriptor table, the callback table and each channel's registers as
  arrays, plus sequences of the SWTRIGCTRL writes, the INTPEND
  acknowledgements and the callbacks run.
  - The driver's operations are config, reload, start, stop and the
    interrupt handler.
  - Both register layouts are modelled, selected by `Variant`. One selects
    a channel through CHID (SAMD2x). The other has a register block per
    channel.

`Common` holds the shared vocabulary: u32 wrap-around, powers of two,
`Option`, and the CLKCTRL value.

## Model

| member | source | states |
|---|---|---|
| ClockMath.Log2 | soc/arm/atmel_sam0/common/clock_samd2x.c:145 | `31 - clz(d)` is the exponent k with 2^k <= d < 2^(k+1) |
| ClockMath.Log2OfPow2 | soc/arm/atmel_sam0/common/clock_samd2x.c:143-146 | log2 of 2^k is k, so the DIVSEL exponent recovers the factor |
| ClockMath.PowerOfTwoTestSound | soc/arm/atmel_sam0/common/clock_samd2x.c:143 | for d >= 1, `(d & (d - 1)) == 0` holds exactly when d is a power of two |
| ClockMath.ZeroPassesPowerOfTwoTest | soc/arm/atmel_sam0/common/clock_samd2x.c:320 | the bit test also accepts 0, which is no power of two |
| ClockMath.RoundedDiv | soc/arm/atmel_sam0/common/clock_samd2x.c:139-140 | `(n + d/2) / d` is at least 1 once n >= d and is 0 only below d/2 |
| ClockMath.RoundedDivNearest | soc/arm/atmel_sam0/common/clock_samd2x.c:139-140 | q*d lies within d/2 of n: the rounded quotient is a nearest integer |
| ClockMath.GclkDivider | soc/arm/atmel_sam0/common/clock_samd2x.c:137-148 | GENDIV is written iff source != output; DIVSEL iff the rounded factor is a power of two >= 2; the (DIVSEL, DIV) pair encodes exactly the rounded factor |
| ClockMath.GclkDividerAsWritten | soc/arm/atmel_sam0/common/clock_samd2x.c:142-148 | the code's own divider: GENDIV iff source != output, field wrapped to u32 |
| ClockMath.GclkDividerAgreesAwayFromOne | soc/arm/atmel_sam0/common/clock_samd2x.c:142-148 | the code's divider and the corrected one agree unless the factor rounds to 1 |
| ClockMath.GclkDividerAsWrittenWrapsAtOne | soc/arm/atmel_sam0/common/clock_samd2x.c:142-148 | 48 MHz to 40 MHz rounds to factor 1; the code writes DIVSEL with DIV 0xFFFFFFFF, which does not encode 1 |
| ClockMath.GclkDividerAsWrittenAtOne | soc/arm/atmel_sam0/common/clock_samd2x.c:139-148 | whenever the rounded factor is 1, the code writes DIVSEL with DIV 0xFFFFFFFF, and that pair does not encode 1 |
| ClockMath.GclkDividerExample | soc/arm/atmel_sam0/common/clock_samd2x.c:137-148 | 32768 Hz to 1024 Hz: factor 32, DIVSEL, DIV field 4 |
| ClockMath.ClampPreDivider | soc/arm/atmel_sam0/common/clock_samd2x.c:214-221 | MIN then the clamp leave a divisor in [1, 0x800]; the reference becomes ref / (2 div) |
| ClockMath.FdpllPreDividerAsWrittenCollapses | soc/arm/atmel_sam0/common/clock_samd2x.c:207-221 | with ref < 2 * target, the code's pre-divider is 1 and the PLL sees ref / 2 |
| ClockMath.FdpllPreDividerAsWrittenExceedsLimit | soc/arm/atmel_sam0/common/clock_samd2x.c:198-223 | an 8 MHz XOSC feeding a 48 MHz FDPLL reaches the PLL at 4 MHz, above the 2 MHz limit; the corrected divider gives 124 and 32258 Hz |
| ClockMath.FdpllPreDivider | soc/arm/atmel_sam0/common/clock_samd2x.c:198-223 | corrected pre-divider in [1, 0x800]; the PLL input is at most 2 MHz, and at least 32 kHz once ref >= 64 kHz |
| ClockMath.FdpllRatio | soc/arm/atmel_sam0/common/clock_samd2x.c:225-235 | LDRFRAC < 16; (LDR + 1) * 16 + LDRFRAC == mul; mul*ref is within ref/2 of 16 * target |
| ClockMath.FdpllRatioFitsU32 | soc/arm/atmel_sam0/common/clock_samd2x.c:225-228 | under the 96 MHz assert, `(target << 4) + ref / 2` stays below 2^32 |
| ClockMath.FdpllLdrFitsField | soc/arm/atmel_sam0/common/clock_samd2x.c:230-235 | with a PLL input >= 32 kHz and <= 96 MHz out, LDR fits its 12-bit field |
| ClockMath.FdpllRatioExample | soc/arm/atmel_sam0/common/clock_samd2x.c:225-235 | 32768 Hz to 48 MHz: mul 23438, LDR field 1463, LDRFRAC 14 |
| ClockMath.DfllMultiplier | soc/arm/atmel_sam0/common/clock_samd2x.c:281-283 | given target >= reference, mul >= 1 and mul*ref lies within ref/2 of the target |
| ClockMath.CpuDividerExponent | soc/arm/atmel_sam0/common/clock_samd2x.c:314-327 | for a passing quotient, the exponent e <= 7 has 2^e == gclk0 source / cpu |
| ClockMath.CpuDividerZeroPassesAssert | soc/arm/atmel_sam0/common/clock_samd2x.c:316-322 | a CPU frequency above the source makes the quotient 0, which passes the first assert |
| ClockMath.FlashWaitStatesThreshold | soc/arm/atmel_sam0/common/clock_samd2x.c:10-18 | RWS is 0 iff AHB <= 24 MHz, 1 iff above, and monotone in the frequency |
| ClockMath.XoscTables | soc/arm/atmel_sam0/common/clock_samd2x.c:66-97 | GAIN 0..4 across the <=2/<=4/<=8/<=16/>16 MHz bands, monotone; STARTUP 7, 8, 6, 5, 4 per band |
| ClockMath.Osc8mPrescaler | soc/arm/atmel_sam0/common/clock_samd2x.c:28-38 | PRESC p <= 3 with 8 MHz / 2^p == f; none (the `#error`) exactly for other frequencies |
| ClockBringUp.Gclk3UncheckedByBuildAsserts | soc/arm/atmel_sam0/common/clock_samd2x.c:366-380 | a GCLK3 dividing 32768 Hz "down" to 1 MHz passes the generator asserts as written, and its factor 0 passes the bit test |
| ClockBringUp.ValidConfigGclkDividers | soc/arm/atmel_sam0/common/clock_samd2x.c:129-154 | with the corrected asserts, every dividing generator has factor >= 1 and its GENDIV/DIVSEL encode exactly that factor |
| ClockBringUp.ConfiguredGclkDivider | soc/arm/atmel_sam0/common/clock_samd2x.c:137-153 | as the code writes it, a dividing generator gets GENDIV, a sync, GENCTRL, a sync; a rounded factor >= 2 is encoded exactly by (DIVSEL, DIV); a factor of 1 gets DIVSEL with DIV 0xFFFFFFFF, which does not encode 1 |
| ClockBringUp.DpllInputOf | soc/arm/atmel_sam0/common/clock_samd2x.c:196-223 | as the code computes it: a non-REF1 reference passes unchanged with DIV 0; for REF1 the pre-divider collapses to 1 under the asserts, so the PLL sees ref / 2 with DIV 0 |
| ClockBringUp.IntendedDpllInput | soc/arm/atmel_sam0/common/clock_samd2x.c:198-223 | corrected half of Findings row 3: for REF1, DIV < 0x800, the input is ref / (2 (DIV + 1)), at most 2 MHz, and at least 32 kHz once ref >= 64 kHz |
| ClockBringUp.DpllInputInRange | soc/arm/atmel_sam0/common/clock_samd2x.c:172-178 | with the corrected pre-divider (not the code's), under the FDPLL asserts the PLL input lies in [32 kHz, 2 MHz] and LDR fits 12 bits |
| ClockBringUp.DpllInputAsWrittenLeavesWindow | soc/arm/atmel_sam0/common/clock_samd2x.c:207-235 | with the code's pre-divider a REF1 input stays within 2 MHz iff the crystal is below 4 MHz + 2 Hz; 32768 Hz to 96 MHz gives LDR 5858, which the 12-bit field truncates |
| ClockBringUp.ClockRegisters.FlashWaitInit | soc/arm/atmel_sam0/common/clock_samd2x.c:10-18 | appends the one RWS write for the AHB frequency |
| ClockBringUp.ClockRegisters.Osc8mInit | soc/arm/atmel_sam0/common/clock_samd2x.c:26-40 | appends the prescaler write, then ONDEMAND cleared |
| ClockBringUp.ClockRegisters.Osc32kInit | soc/arm/atmel_sam0/common/clock_samd2x.c:42-57 | appends CALIB from the fuses, STARTUP 6, EN32K, ENABLE when OSC32K is configured |
| ClockBringUp.ClockRegisters.XoscInit | soc/arm/atmel_sam0/common/clock_samd2x.c:59-101 | appends XTALEN, ENABLE, and the band's GAIN and STARTUP when XOSC is configured |
| ClockBringUp.ClockRegisters.Xosc32kInit | soc/arm/atmel_sam0/common/clock_samd2x.c:103-111 | appends STARTUP 6, XTALEN, EN32K, ENABLE when XOSC32K is configured |
| ClockBringUp.ClockRegisters.WaitFixedOscReady | soc/arm/atmel_sam0/common/clock_samd2x.c:113-127 | appends a ready wait for each configured fixed oscillator |
| ClockBringUp.ClockRegisters.ConfigureGclk | soc/arm/atmel_sam0/common/clock_samd2x.c:129-154 | appends GENDIV and a sync when dividing, then GENCTRL (ID, SRC, IDC, GENEN, DIVSEL) and a sync, with the code's divider: DIVSEL for every factor passing the bit test, 1 included, and the field `div - 1` wrapped to u32 |
| ClockBringUp.ClockRegisters.SetupGclk | soc/arm/atmel_sam0/common/clock_samd2x.c:156-160 | appends generator n's setup, or nothing when n is not configured |
| ClockBringUp.ClockRegisters.DfllInit | soc/arm/atmel_sam0/common/clock_samd2x.c:241-294 | appends ENABLE alone, DFLLVAL, the closed-loop route, sync and DFLLMUL, then the final DFLLCTRL |
| ClockBringUp.ClockRegisters.FdpllInit | soc/arm/atmel_sam0/common/clock_samd2x.c:162-238 | appends the GCLK route and sync when needed, then DPLLRATIO (LDR masked to 12 bits), DPLLCTRLB, DPLLCTRLA, from the code's pre-divider |
| ClockBringUp.ClockRegisters.WaitProgrammableOscReady | soc/arm/atmel_sam0/common/clock_samd2x.c:296-312 | appends the DFLL lock and ready waits and the DPLL lock wait for what is configured |
| ClockBringUp.ClockRegisters.DividersInit | soc/arm/atmel_sam0/common/clock_samd2x.c:314-328 | appends the one exponent to CPUDIV, APBADIV, APBBDIV, APBCDIV |
| ClockBringUp.ClockRegisters.SetOnDemandIf | soc/arm/atmel_sam0/common/clock_samd2x.c:338-352 | appends one ONDEMAND write when its guard holds |
| ClockBringUp.ClockRegisters.OscOnDemand | soc/arm/atmel_sam0/common/clock_samd2x.c:330-353 | appends ONDEMAND for OSC8M and each configured oscillator, in code order |
| ClockBringUp.ClockRegisters.FixedOscInit | soc/arm/atmel_sam0/common/clock_samd2x.c:360-363 | appends the four fixed-oscillator setups in order |
| ClockBringUp.ClockRegisters.SetupGclks1To8 | soc/arm/atmel_sam0/common/clock_samd2x.c:366-405 | appends generators 1..8 in index order, each with the code's divider |
| ClockBringUp.ClockRegisters.ClockInit | soc/arm/atmel_sam0/common/clock_samd2x.c:355-426 | appends exactly BringUpTrace(c): the nine stages in order, with the code's generator divider and FDPLL pre-divider |
| BringUpOrder.BringUpOrdered | soc/arm/atmel_sam0/common/clock_samd2x.c:355-426 | on the whole trace: fixed oscillators before any generator, GCLK1..8 before the DFLL/FDPLL, every oscillator before GCLK0, every generator before the dividers, ONDEMAND after everything else |
| BringUpOrder.FlashWaitFirst | soc/arm/atmel_sam0/common/clock_samd2x.c:357 | the first event is the RWS write for the CPU frequency, and it is the only flash write |
| BringUpOrder.GenCtrlSequence | soc/arm/atmel_sam0/common/clock_samd2x.c:366-420 | the GENCTRL writes are exactly one per configured generator, GCLK1..8 in increasing id, then GCLK0 |
| BringUpOrder.GenCtrlsForEntries | soc/arm/atmel_sam0/common/clock_samd2x.c:366-405 | each listed GENCTRL belongs to a configured generator in range, with its source and the DIVSEL the code computes |
| BringUpOrder.GenCtrlsForIncreasing | soc/arm/atmel_sam0/common/clock_samd2x.c:366-405 | the generator ids of the GENCTRL writes strictly increase |
| BringUpOrder.GenCtrlsForComplete | soc/arm/atmel_sam0/common/clock_samd2x.c:366-405 | every configured generator in range has its GENCTRL write |
| BringUpOrder.GclkWritesSynced | soc/arm/atmel_sam0/common/clock_samd2x.c:20-24 | every GENDIV, GENCTRL and CLKCTRL write is immediately followed by a SYNCBUSY wait |
| BringUpOrder.DividersUniform | soc/arm/atmel_sam0/common/clock_samd2x.c:314-328 | the trace's PM writes are CPU, APBA, APBB, APBC with one exponent e <= 7, 2^e == source / cpu |
| BringUpOrder.OnDemandCover | soc/arm/atmel_sam0/common/clock_samd2x.c:330-353 | ONDEMAND is set on an oscillator iff that oscillator is configured |
| BringUpOrder.FixedOscOnDemand | soc/arm/atmel_sam0/common/clock_samd2x.c:39 | the only ONDEMAND write of the fixed-oscillator stage clears OSC8M's |
| BringUpOrder.OnDemandWrites | soc/arm/atmel_sam0/common/clock_samd2x.c:330-353 | the trace's ONDEMAND writes are OSC8M cleared, then the set ones in code order; set on o iff o is configured |
| BringUpOrder.DfllAccesses | soc/arm/atmel_sam0/common/clock_samd2x.c:241-294 | the DFLL's writes are ENABLE alone first (errata), DFLLVAL, the route and DFLLMUL in closed loop, the final DFLLCTRL, then ONDEMAND |
| BringUpOrder.DpllAccesses | soc/arm/atmel_sam0/common/clock_samd2x.c:181-237 | the FDPLL's writes are the optional route, DPLLRATIO, DPLLCTRLB, DPLLCTRLA, then ONDEMAND |
| BringUpOrder.DfllTouchesNoDpll | soc/arm/atmel_sam0/common/clock_samd2x.c:241-294 | the DFLL setup writes no FDPLL register |
| BringUpOrder.FdpllTouchesNoDfll | soc/arm/atmel_sam0/common/clock_samd2x.c:162-238 | the FDPLL setup writes no DFLL register |
| Sam0Soc.GclkSubsys | soc/arm/atmel_sam0/samd20/soc.h:60-62 | the tag lands in the type byte for ids below 2^24; ids up to 0xFFFF read back from the id field |
| Sam0Soc.GclkOutId | drivers/clock_control/clock_control_samd2x.c:32 | the id a driver takes from a selector fits 16 bits |
| Sam0Soc.DecodeSubsys | soc/arm/atmel_sam0/samd21/soc.h:50-53 | a selector decodes iff it carries the GCLK-output tag, to its low 16 bits |
| Sam0Soc.SelectorMasksDisjoint | soc/arm/atmel_sam0/samd20/soc.h:56-59 | the type and id masks do not overlap, and the tag lies inside the type mask |
| Sam0Soc.SubsysRoundTrip | soc/arm/atmel_sam0/samd21/soc.h:53-56 | decoding the selector of any 16-bit id gives the id back |
| Sam0Soc.GclkSubsysInjective | soc/arm/atmel_sam0/samd21/soc.h:54-56 | distinct 16-bit ids give distinct selectors |
| ClockControl.GclkRegisters.LastClkCtrl | drivers/clock_control/clock_control_samd2x.c:34-36 | what CLKCTRL holds: the last value written, none before any write |
| ClockControl.GclkNode.constructor | drivers/clock_control/clock_control_samd2x.c:82-90 | a node holds its constant frequency and generator id |
| ClockControl.GclkNode.Init | drivers/clock_control/clock_control_samd2x.c:71-74 | init succeeds and changes nothing |
| ClockControl.GclkNode.On | drivers/clock_control/clock_control_samd2x.c:23-39 | for a GCLK-output selector, one CLKCTRL write with the node's GEN, CLKEN set and ID = selector & 0xFFFF, which CLKCTRL then holds; returns 0 |
| ClockControl.GclkNode.Off | drivers/clock_control/clock_control_samd2x.c:41-56 | the same CLKCTRL write with CLKEN clear, which CLKCTRL then holds; returns 0 |
| ClockControl.GclkNode.GetRate | drivers/clock_control/clock_control_samd2x.c:58-69 | the configured frequency whatever the selector; returns 0 |
| ClockControl.OnOffDifferOnlyInEnable | drivers/clock_control/clock_control_samd2x.c:34-53 | on and off write the same GEN and ID and differ only in CLKEN |
| ClockControl.OnRoutesEncodedChannel | drivers/clock_control/clock_control_samd2x.c:29-36 | a selector built by the SoC encoder passes the tag assert and routes exactly the encoded channel |
| ClockControl.OnIdempotent | drivers/clock_control/clock_control_samd2x.c:23-39 | two `on` calls on one node leave CLKCTRL holding what one call left: the node's GEN, CLKEN and the selector's channel |
| ClockControl.InitPriority | drivers/clock_control/clock_control_samd2x.c:92-106 | GCLK0's node at priority 3, the others at 1 |
| ClockControl.InitOrder | drivers/clock_control/clock_control_samd2x.c:10-15 | GCLK0's node initialises after GCLK1..3, and an accepted system clock priority after all of them |
| DmaSam0.BeatSizeCode | drivers/dma/dma_sam0.c:180-193 | a BEATSIZE code exists exactly for 1, 2 and 4 bytes, and is at most WORD |
| DmaSam0.BeatBytes | drivers/dma/dma_sam0.c:304-316 | a BEATSIZE code stands for a size exactly when it is BYTE, HWORD or WORD |
| DmaSam0.BeatSizeRoundTrip | drivers/dma/dma_sam0.c:180-193 | data sizes and BEATSIZE codes correspond one to one |
| DmaSam0.ConfigStatus | drivers/dma/dma_sam0.c:75-193 | config returns 0 iff the early checks and the later checks pass, and -ENOTSUP iff the channel exists and there is more than one block |
| DmaSam0.ConfigRegs | drivers/dma/dma_sam0.c:91-172 | the channel is disabled with the new TRIGSRC and TRIGACT on every exit; the register checks pass iff priority < LVL_NUM (and, per-channel, equal bursts <= 16); on success LVL, BURSTLEN and the interrupt enables are set |
| DmaSam0.ConfigDescriptor | drivers/dma/dma_sam0.c:175-227 | the descriptor checks pass iff sizes are equal and 1/2/4 and neither side decrements; on success the descriptor is the configured one; on failure BTCTRL is untouched |
| DmaSam0.ConfigChannel | drivers/dma/dma_sam0.c:91-244 | past the early checks: success iff the later checks pass; channel disabled with the new trigger; on success the descriptor, callback entry, LVL and interrupts; on failure callback entry and BTCTRL unchanged |
| DmaSam0.ConfiguredDescriptorDescribesBlock | drivers/dma/dma_sam0.c:195-227 | the configured descriptor is VALID and last, its beat size is the data size, BTCNT beats cover the block (exactly when the size divides it), and INC flags follow the adjustments |
| DmaSam0.ConfigFailureRewritesCount | drivers/dma/dma_sam0.c:195-224 | failing on the destination adjustment leaves BTCNT, DESCADDR and SRCADDR rewritten under the old BTCTRL |
| DmaSam0.ReloadDescriptor | drivers/dma/dma_sam0.c:304-328 | reload fails iff the stored beat size is reserved; otherwise BTCTRL and DESCADDR are kept |
| DmaSam0.ReloadAgreesWithConfig | drivers/dma/dma_sam0.c:304-328 | reloading a configured descriptor gives what config of the same request for the new block gives |
| DmaSam0.ReloadIdempotent | drivers/dma/dma_sam0.c:304-328 | reloading twice with the same block equals reloading once |
| DmaSam0.IsrChannel | drivers/dma/dma_sam0.c:45 | the decoded channel is below 16 |
| DmaSam0.IsrError | drivers/dma/dma_sam0.c:48-56 | TERR gives -TERR and takes precedence; TCMPL alone gives 0; neither gives nothing |
| DmaSam0.IsrCalls | drivers/dma/dma_sam0.c:46-56 | at most one callback: exactly when the entry has one and a flag is set, with its argument, the channel and the code |
| DmaSam0.IsrDecodesPending | drivers/dma/dma_sam0.c:39-56 | an INTPEND built from channel ch and the two flags decodes back to ch and the right code |
| DmaSam0.Dmac.constructor | drivers/dma/dma_sam0.c:23-27 | zeroed descriptor and callback tables, reset registers, empty logs; every beat size valid |
| DmaSam0.Dmac.Config | drivers/dma/dma_sam0.c:65-245 | return code as ConfigStatus; early failures change nothing; past them only the channel's registers, descriptor and callback entry change, as ConfigChannel says; stored beat sizes stay valid |
| DmaSam0.Dmac.ProgramRegs | drivers/dma/dma_sam0.c:91-172 | only the channel's registers change, as ConfigRegs says |
| DmaSam0.Dmac.ProgramDescriptor | drivers/dma/dma_sam0.c:175-227 | only the channel's descriptor changes, as ConfigDescriptor says |
| DmaSam0.Dmac.Start | drivers/dma/dma_sam0.c:247-275 | enables the channel; SWTRIGCTRL gets 1 << channel iff TRIGSRC is 0; returns 0 |
| DmaSam0.Dmac.Stop | drivers/dma/dma_sam0.c:277-295 | clears the channel's enable and nothing else; returns 0 |
| DmaSam0.Dmac.Reload | drivers/dma/dma_sam0.c:297-339 | 0 and the ReloadDescriptor result on a valid beat size, -EINVAL with nothing changed otherwise; with valid stored beat sizes it always succeeds |
| DmaSam0.Dmac.Isr | drivers/dma/dma_sam0.c:34-62 | acknowledges INTPEND with the value read, then runs exactly IsrCalls for the pending channel |

## Left out

- The busy-wait loops poll live hardware. These are GCLK SYNCBUSY, the oscillator ready flags, and the DFLL and DPLL lock flags. Each becomes one trace event, with no claim about how long it spins.
- The fuse rows are memory-mapped reads. The OSC32K calibration and the DFLL coarse/fine values are inputs, in `Fuses`.
- The field macros pack values into registers (`GCLK_GENDIV_DIV`, `GCLK_GENCTRL_SRC`, …). Registers are records of named fields holding the value passed to the macro; the one field mask modelled is the 12-bit LDR of DPLLRATIO (`ClockBringUp.LdrField`). So the GENDIV write for a factor of 1 records 0xFFFFFFFF rather than the part of it the DIV field keeps.
- `SOC_ATMEL_SAM0_GCLK_SELECT` is defined outside the files of this model. It is taken to write CLKCTRL with the given generator, CLKEN set and the given channel id, as `ClkCtrl(gen, true, id)` in the DFLL and FDPLL setups.
- Physical output frequencies and oscillator behaviour are out of scope. Only the code's integer computations are in scope.
- `ClockControl.GclkNode.On` and `ClockControl.GclkNode.Off` require the selector's tag. This follows the `__ASSERT_NO_MSG`. A build without asserts would write whatever the low 16 bits say.
- `ClockControl.GclkNode.Init`, `GetRate`, `On` and `Off`: the device table and the driver API structure are not modelled; each node is an object holding its configuration.
- `ClockControl`: only GCLK0..GCLK3 have nodes. This follows the four `SAM0_GCLK_DECLARE` blocks.
- DMA `irq_lock`/`irq_unlock` sections are treated as atomic. Interrupt preemption and concurrency are not modelled.
- `DmaSam0.Dmac.Start`, `Stop`, `Reload` and `Isr` require channel < DMAC_CH_NUM. The driver does not range-check the channel in these calls and would index out of its tables.
- `DmaSam0.Dmac.Isr` handles one INTPEND value per call. Re-entry for further pending channels is left to the caller.
- The DMA driver also clears CHINTFLAG and writes CHID/CHINTENCLR. Those are modelled only through their effect on the channel's `ChannelRegs` (interrupt enables). The CHINTFLAG clear has no model.
- `dma_sam0_init` is not part of this model, and neither are `IRQ_CONNECT`, `DEVICE_AND_API_INIT` and the logging. The init sets the base addresses and enables the controller.
- The errno values are abstracted as `Status` (`Ok`, `Inval`, `NotSup`), standing for 0, -EINVAL and -ENOTSUP.
- The INTPEND ID/TERR/TCMPL positions, the BEATSIZE codes and the 12-bit width of DPLLRATIO.LDR are constants of the SAMD21 DMAC register header, which is not part of this model.
- `DmaSam0.ConfiguredDescriptor`: BTCNT is a 16-bit register and the quotient is not truncated to 16 bits. The SRCADDR/DSTADDR sums do wrap at 32 bits.
- `DmaSam0.Dmac.Reload`: the same, as BTCNT is not truncated to 16 bits.
- `ClockBringUp.DpllInputInRange` is stated for the corrected pre-divider (`ClockBringUp.IntendedDpllInput`); the trace follows the code's, whose input leaves the window (`ClockBringUp.DpllInputAsWrittenLeavesWindow`). It also asks a XOSC (REF1) reference to be at least 64 kHz, not the asserted 32 kHz. The pre-divider always divides by at least two, so a reference between 32 and 64 kHz reaches the PLL below 32 kHz.
- The two `soc.c` files are not part of this model. They hold a constant register sequence and fault setup.
- Both `soc.h` files define the same selector. `Sam0Soc` models it once and cites both.
- `ClockBringUp.ValidConfig` states the generator, DFLL, FDPLL and CPU divider asserts as the code evidently intends them. It also excludes u32 overflow in the rounding sums. The code's own generator asserts are `ClockBringUp.GclkAssertsAsWritten`.
- `ClockMath.FdpllRatioExample`: the ratio for a 32768 Hz reference and a 48 MHz target is mul 23438, LDR field 1463, LDRFRAC 14. 768 000 000 / 32768 is 23437.5, and the code's `+ clk_ref / 2` rounds it up. Truncating would give 23437 and 13, but the code rounds, and the model follows the code.

## Findings

| source | as written | input that shows it | evidently intended | confidence | as-written member | corrected member |
|---|---|---|---|---|---|---|
| soc/arm/atmel_sam0/common/clock_samd2x.c:142-148 | a rounded factor of 1 passes the power-of-two test, takes DIVSEL, and `div - 1` wraps to 0xFFFFFFFF | source 48 MHz, output 40 MHz | DIVSEL only for factors >= 2; factor 1 written as DIV 0 without DIVSEL | not executed | ClockMath.GclkDividerAsWrittenWrapsAtOne | ClockMath.GclkDivider |
| soc/arm/atmel_sam0/common/clock_samd2x.c:366-380 | the BUILD_ASSERT before generator n (n = 1..3) checks generator n - 1, so GCLK3's output <= source is never checked | GCLK3 with a 32768 Hz source and a 1 MHz output: factor 0, which passes the bit test into `__builtin_clz(0)` | each generator's own assert: 1 <= output <= source | not executed | ClockBringUp.Gclk3UncheckedByBuildAsserts | ClockBringUp.ValidConfigGclkDividers |
| soc/arm/atmel_sam0/common/clock_samd2x.c:207-223 | `ref / (2 * target)` is truncated before `* 0x1000`, so under the 48 MHz assert the pre-divider is always 1 and the PLL input is ref / 2 | 8 MHz XOSC reference, 48 MHz target: PLL input 4 MHz, above 2 MHz | the largest divisor keeping the input within [32 kHz, 2 MHz] (ref * 0x1000 / (2 * target), clamped) | not executed | ClockMath.FdpllPreDividerAsWrittenExceedsLimit | ClockMath.FdpllPreDivider |
| soc/arm/atmel_sam0/common/clock_samd2x.c:314-322 | a quotient of 0 passes `(div & (div - 1)) == 0` and reaches `__builtin_clz(0)` | gclk0 source 8 MHz, CPU frequency 48 MHz | the quotient must be a non-zero power of two of at most 128 | not executed | ClockMath.CpuDividerZeroPassesAssert | ClockMath.CpuDividerExponent |
