/**
 * What the order of soc_sam0_clock_init promises, stated on the whole
 * trace BringUpTrace(c) rather than stage by stage: the flash wait states
 * come first, every oscillator is configured and ready before a generator
 * uses it, GCLK1..8 are set up before the DFLL and FDPLL (which may take a
 * generator as reference), GCLK0 comes after every oscillator, the
 * dividers after every generator and ONDEMAND after everything else.
 */
module BringUpOrder {
  import opened Common
  import opened ClockMath
  import opened ClockBringUp

  // ---------------------------------------------------------------------
  // Trace vocabulary

  /** Every p-event of t comes before every q-event of t. */
  predicate Precedes(t: seq<Event>, p: Event -> bool, q: Event -> bool) {
    forall i, j :: 0 <= i < |t| && 0 <= j < |t| && p(t[i]) && q(t[j]) ==> i < j
  }

  /** No event of t satisfies p. */
  predicate NoneIn(t: seq<Event>, p: Event -> bool) {
    forall e :: e in t ==> !p(e)
  }

  /** The p-events of t, in trace order. */
  function Filter(t: seq<Event>, p: Event -> bool): seq<Event> {
    if t == [] then []
    else Filter(t[..|t| - 1], p) + (if p(t[|t| - 1]) then [t[|t| - 1]] else [])
  }

  lemma {:induction false} FilterAppend(a: seq<Event>, b: seq<Event>, p: Event -> bool)
    ensures Filter(a + b, p) == Filter(a, p) + Filter(b, p)
    decreases |b|
  {
    if b == [] {
      assert a + b == a;
    } else {
      assert (a + b)[..|a + b| - 1] == a + b[..|b| - 1];
      FilterAppend(a, b[..|b| - 1], p);
    }
  }

  lemma {:induction false} FilterNone(t: seq<Event>, p: Event -> bool)
    requires NoneIn(t, p)
    ensures Filter(t, p) == []
    decreases |t|
  {
    if t != [] {
      assert t[|t| - 1] in t;
      FilterNone(t[..|t| - 1], p);
    }
  }

  lemma {:induction false} FilterAll(t: seq<Event>, p: Event -> bool)
    requires forall e :: e in t ==> p(e)
    ensures Filter(t, p) == t
    decreases |t|
  {
    if t != [] {
      assert t[|t| - 1] in t;
      FilterAll(t[..|t| - 1], p);
      assert t == t[..|t| - 1] + [t[|t| - 1]];
    }
  }

  lemma NoneInIndices(t: seq<Event>, p: Event -> bool)
    requires NoneIn(t, p)
    ensures forall i :: 0 <= i < |t| ==> !p(t[i])
  {
    forall i | 0 <= i < |t|
      ensures !p(t[i])
    {
      assert t[i] in t;
    }
  }

  lemma NoneInPrecedes(t: seq<Event>, p: Event -> bool, q: Event -> bool)
    requires NoneIn(t, p) || NoneIn(t, q)
    ensures Precedes(t, p, q)
  {
    if NoneIn(t, p) {
      NoneInIndices(t, p);
    } else {
      NoneInIndices(t, q);
    }
  }

  lemma PrecedesAppend(a: seq<Event>, b: seq<Event>, p: Event -> bool, q: Event -> bool)
    requires Precedes(a, p, q) && Precedes(b, p, q)
    requires NoneIn(a, q) || NoneIn(b, p)
    ensures Precedes(a + b, p, q)
  {
    var t := a + b;
    if NoneIn(a, q) {
      NoneInIndices(a, q);
    } else {
      NoneInIndices(b, p);
    }
    forall i, j | 0 <= i < |t| && 0 <= j < |t| && p(t[i]) && q(t[j])
      ensures i < j
    {
      if i < |a| && j < |a| {
        assert a[i] == t[i] && a[j] == t[j];
      } else if |a| <= i && |a| <= j {
        assert b[i - |a|] == t[i] && b[j - |a|] == t[j];
      }
    }
  }

  lemma {:induction false} FlattenNoneIn(ss: seq<seq<Event>>, p: Event -> bool)
    requires forall m :: 0 <= m < |ss| ==> NoneIn(ss[m], p)
    ensures NoneIn(Flatten(ss), p)
  {
    if ss != [] {
      assert NoneIn(ss[0], p);
      FlattenNoneIn(ss[1..], p);
    }
  }

  lemma {:induction false} FilterMember(t: seq<Event>, p: Event -> bool, e: Event)
    requires e in t && p(e)
    ensures e in Filter(t, p)
    decreases |t|
  {
    if t[|t| - 1] != e {
      assert t == t[..|t| - 1] + [t[|t| - 1]];
      FilterMember(t[..|t| - 1], p, e);
    }
  }

  lemma {:induction false} FilterSubset(t: seq<Event>, p: Event -> bool, e: Event)
    requires e in Filter(t, p)
    ensures e in t && p(e)
    decreases |t|
  {
    assert t != [];
    assert t == t[..|t| - 1] + [t[|t| - 1]];
    if e in Filter(t[..|t| - 1], p) {
      FilterSubset(t[..|t| - 1], p, e);
    }
  }

  /** When only stage k holds p-events, the p-events of the whole trace are those of stage k. */
  lemma {:induction false} FilterOneStage(ss: seq<seq<Event>>, p: Event -> bool, k: nat)
    requires k < |ss|
    requires forall m :: 0 <= m < |ss| && m != k ==> NoneIn(ss[m], p)
    ensures Filter(Flatten(ss), p) == Filter(ss[k], p)
  {
    FilterAppend(ss[0], Flatten(ss[1..]), p);
    if k == 0 {
      FlattenNoneIn(ss[1..], p);
      FilterNone(Flatten(ss[1..]), p);
    } else {
      FilterNone(ss[0], p);
      FilterOneStage(ss[1..], p, k - 1);
    }
  }

  /** When only stages k1 < k2 hold p-events, the p-events of the trace are theirs, in that order. */
  lemma {:induction false} FilterTwoStages(ss: seq<seq<Event>>, p: Event -> bool, k1: nat, k2: nat)
    requires k1 < k2 < |ss|
    requires forall m :: 0 <= m < |ss| && m != k1 && m != k2 ==> NoneIn(ss[m], p)
    ensures Filter(Flatten(ss), p) == Filter(ss[k1], p) + Filter(ss[k2], p)
  {
    FilterAppend(ss[0], Flatten(ss[1..]), p);
    if k1 == 0 {
      FilterOneStage(ss[1..], p, k2 - 1);
    } else {
      FilterNone(ss[0], p);
      FilterTwoStages(ss[1..], p, k1 - 1, k2 - 1);
    }
  }

  /**
   * Stage k is where p-events stop and q-events start: p-events only in
   * stages up to k, q-events only from k on, and in order within stage k.
   */
  lemma {:induction false} FlattenPrecedes(ss: seq<seq<Event>>, p: Event -> bool, q: Event -> bool, k: nat)
    requires k < |ss|
    requires forall m :: k < m < |ss| ==> NoneIn(ss[m], p)
    requires forall m :: 0 <= m < k ==> NoneIn(ss[m], q)
    requires Precedes(ss[k], p, q)
    ensures Precedes(Flatten(ss), p, q)
  {
    if k == 0 {
      FlattenNoneIn(ss[1..], p);
      NoneInPrecedes(Flatten(ss[1..]), p, q);
      PrecedesAppend(ss[0], Flatten(ss[1..]), p, q);
    } else {
      FlattenPrecedes(ss[1..], p, q, k - 1);
      NoneInPrecedes(ss[0], p, q);
      PrecedesAppend(ss[0], Flatten(ss[1..]), p, q);
    }
  }

  // ---------------------------------------------------------------------
  // Kinds of events

  predicate IsFlashWrite(e: Event) {
    e.Wr? && e.w.FlashWait?
  }

  /** A write of a generator's GENDIV or GENCTRL register. */
  predicate IsGclkWrite(e: Event) {
    e.Wr? && (e.w.GenDiv? || e.w.GenCtrl?)
  }

  predicate IsGenCtrl(e: Event) {
    e.Wr? && e.w.GenCtrl?
  }

  predicate IsGclk0Write(e: Event) {
    IsGclkWrite(e) && e.w.id == 0
  }

  predicate IsOtherGclkWrite(e: Event) {
    IsGclkWrite(e) && e.w.id != 0
  }

  /** Configuration of, or the ready wait on, OSC8M, OSC32K, XOSC or XOSC32K. */
  predicate IsFixedOscSetup(e: Event) {
    match e
    case Wr(w) =>
      w.Osc8mPresc? || w.Osc32kCtrl? || w.XoscCtrl? || w.Xosc32kCtrl? || w == OnDemand(Osc8m, false)
    case WaitOscReady(o) => o == Osc32k || o == Xosc || o == Xosc32k
    case _ => false
  }

  /** Reference routing, configuration of, or a lock or ready wait on the DFLL48M or FDPLL96M. */
  predicate IsProgrammableSetup(e: Event) {
    match e
    case Wr(w) =>
      w.ClkCtrlWrite? || w.DfllCtrl? || w.DfllVal? || w.DfllMul?
      || w.DpllRatio? || w.DpllCtrlB? || w.DpllCtrlA?
    case WaitOscReady(o) => o == Dfll48m
    case WaitDfllLock => true
    case WaitDpllLock => true
    case SyncGclk => false
  }

  predicate IsOscSetup(e: Event) {
    IsFixedOscSetup(e) || IsProgrammableSetup(e)
  }

  predicate IsPmDiv(e: Event) {
    e.Wr? && e.w.PmDiv?
  }

  predicate IsOnDemandSet(e: Event) {
    e.Wr? && e.w.OnDemand? && e.w.on
  }

  predicate IsNotOnDemandSet(e: Event) {
    !IsOnDemandSet(e)
  }

  predicate IsOnDemandWrite(e: Event) {
    e.Wr? && e.w.OnDemand?
  }

  /** A write of a DFLL48M register, or the routing of its reference channel. */
  predicate IsDfllAccess(e: Event) {
    e.Wr? &&
    (e.w.DfllCtrl? || e.w.DfllVal? || e.w.DfllMul?
     || (e.w.ClkCtrlWrite? && e.w.ctrl.id == CLKCTRL_ID_DFLL48)
     || (e.w.OnDemand? && e.w.osc == Dfll48m))
  }

  /** A write of an FDPLL96M register, or the routing of its reference channel. */
  predicate IsDpllAccess(e: Event) {
    e.Wr? &&
    (e.w.DpllRatio? || e.w.DpllCtrlB? || e.w.DpllCtrlA?
     || (e.w.ClkCtrlWrite? && e.w.ctrl.id == CLKCTRL_ID_FDPLL)
     || (e.w.OnDemand? && e.w.osc == Fdpll96m))
  }

  /** A GCLK synchronisation wait, or a GENDIV/GENCTRL write for a generator in lo .. hi - 1. */
  predicate InGclkStage(e: Event, lo: nat, hi: nat) {
    e == SyncGclk || (IsGclkWrite(e) && lo <= e.w.id < hi)
  }

  // ---------------------------------------------------------------------
  // What each stage holds

  lemma GclkSetupShape(id: nat, g: Gclk)
    requires GclkOk(g)
    ensures forall e :: e in GclkSetupEvents(id, g) ==> InGclkStage(e, id, id + 1)
  {
  }

  lemma {:induction false} GclkRangeShape(gclks: seq<Option<Gclk>>, lo: nat, hi: nat)
    requires lo <= hi <= |gclks| && GclksOk(gclks)
    ensures forall e :: e in GclkRangeEvents(gclks, lo, hi) ==> InGclkStage(e, lo, hi)
    decreases hi - lo
  {
    if lo < hi {
      GclkRangeShape(gclks, lo, hi - 1);
      assert GclkRangeEvents(gclks, lo, hi) == GclkRangeEvents(gclks, lo, hi - 1) + GclkEventsFor(gclks, hi - 1);
      if gclks[hi - 1].Some? {
        assert GclkOk(gclks[hi - 1].value);
        GclkSetupShape(hi - 1, gclks[hi - 1].value);
      }
    }
  }

  lemma FixedOscShape(c: ClockConfig)
    requires Osc8mPrescaler(c.osc8mFreq).Some?
    ensures forall e :: e in FixedOscEvents(c) ==> IsFixedOscSetup(e)
    ensures forall e :: e in FixedOscReadyEvents(c) ==> IsFixedOscSetup(e) && e.WaitOscReady?
  {
  }

  lemma ProgrammableShape(c: ClockConfig)
    requires c.dfll.Some? ==> DfllOk(c.dfll.value)
    requires c.fdpll.Some? ==> FdpllOk(c.fdpll.value)
    ensures forall e :: e in DfllEvents(c.dfll, c.fuses, c.dfllWaitLock) + FdpllEvents(c.fdpll)
              ==> e == SyncGclk || IsProgrammableSetup(e)
    ensures forall e :: e in ProgrammableReadyEvents(c.dfll, c.fdpll) ==> IsProgrammableSetup(e) && !e.Wr?
  {
  }

  lemma OnDemandShape(c: ClockConfig)
    ensures forall e :: e in OnDemandEvents(c) ==> IsOnDemandSet(e)
  {
  }

  /** The kind of event each of the nine stages may hold. */
  predicate ShapedStages(ss: seq<seq<Event>>) {
    |ss| == 9
    && (forall e :: e in ss[0] ==> IsFlashWrite(e))
    && (forall e :: e in ss[1] ==> IsFixedOscSetup(e))
    && (forall e :: e in ss[2] ==> IsFixedOscSetup(e) && e.WaitOscReady?)
    && (forall e :: e in ss[3] ==> InGclkStage(e, 1, 9))
    && (forall e :: e in ss[4] ==> e == SyncGclk || IsProgrammableSetup(e))
    && (forall e :: e in ss[5] ==> IsProgrammableSetup(e) && !e.Wr?)
    && (forall e :: e in ss[6] ==> InGclkStage(e, 0, 1))
    && (forall e :: e in ss[7] ==> IsPmDiv(e))
    && (forall e :: e in ss[8] ==> IsOnDemandSet(e))
  }

  lemma StageShape0(c: ClockConfig)
    requires ValidConfig(c)
    ensures forall e :: e in Stages(c)[0] ==> IsFlashWrite(e)
  {
  }

  lemma StageShape1(c: ClockConfig)
    requires ValidConfig(c)
    ensures forall e :: e in Stages(c)[1] ==> IsFixedOscSetup(e)
  {
    FixedOscShape(c);
  }

  lemma StageShape2(c: ClockConfig)
    requires ValidConfig(c)
    ensures forall e :: e in Stages(c)[2] ==> IsFixedOscSetup(e) && e.WaitOscReady?
  {
    FixedOscShape(c);
  }

  lemma StageShape3(c: ClockConfig)
    requires ValidConfig(c)
    ensures forall e :: e in Stages(c)[3] ==> InGclkStage(e, 1, 9)
  {
    assert Stages(c)[3] == GclkRangeEvents(c.gclks, 1, 9);
    GclkRangeShape(c.gclks, 1, 9);
  }

  lemma StageShape4(c: ClockConfig)
    requires ValidConfig(c)
    ensures forall e :: e in Stages(c)[4] ==> e == SyncGclk || IsProgrammableSetup(e)
  {
    ProgrammableShape(c);
  }

  lemma StageShape5(c: ClockConfig)
    requires ValidConfig(c)
    ensures forall e :: e in Stages(c)[5] ==> IsProgrammableSetup(e) && !e.Wr?
  {
    ProgrammableShape(c);
  }

  lemma StageShape6(c: ClockConfig)
    requires ValidConfig(c)
    ensures forall e :: e in Stages(c)[6] ==> InGclkStage(e, 0, 1)
  {
    assert GclkOk(c.gclks[0].value);
    GclkSetupShape(0, c.gclks[0].value);
  }

  lemma StageShape7(c: ClockConfig)
    requires ValidConfig(c)
    ensures forall e :: e in Stages(c)[7] ==> IsPmDiv(e)
  {
  }

  lemma StageShape8(c: ClockConfig)
    requires ValidConfig(c)
    ensures forall e :: e in Stages(c)[8] ==> IsOnDemandSet(e)
  {
    OnDemandShape(c);
  }

  lemma StageShapes(c: ClockConfig)
    requires ValidConfig(c)
    ensures ShapedStages(Stages(c))
  {
    StageShape0(c);
    StageShape1(c);
    StageShape2(c);
    StageShape3(c);
    StageShape4(c);
    StageShape5(c);
    StageShape6(c);
    StageShape7(c);
    StageShape8(c);
  }

  // ---------------------------------------------------------------------
  // Order across stages

  lemma FixedOscBeforeGclks(ss: seq<seq<Event>>)
    requires ShapedStages(ss)
    ensures Precedes(Flatten(ss), IsFixedOscSetup, IsGclkWrite)
  {
    forall m | 3 < m < |ss|
      ensures NoneIn(ss[m], IsFixedOscSetup)
    {
      assert m == 4 || m == 5 || m == 6 || m == 7 || m == 8;
    }
    forall m | 0 <= m < 3
      ensures NoneIn(ss[m], IsGclkWrite)
    {
      assert m == 0 || m == 1 || m == 2;
    }
    NoneInPrecedes(ss[3], IsFixedOscSetup, IsGclkWrite);
    FlattenPrecedes(ss, IsFixedOscSetup, IsGclkWrite, 3);
  }

  lemma GclksBeforeProgrammable(ss: seq<seq<Event>>)
    requires ShapedStages(ss)
    ensures Precedes(Flatten(ss), IsOtherGclkWrite, IsProgrammableSetup)
  {
    forall m | 3 < m < |ss|
      ensures NoneIn(ss[m], IsOtherGclkWrite)
    {
      assert m == 4 || m == 5 || m == 6 || m == 7 || m == 8;
    }
    forall m | 0 <= m < 3
      ensures NoneIn(ss[m], IsProgrammableSetup)
    {
      assert m == 0 || m == 1 || m == 2;
    }
    NoneInPrecedes(ss[3], IsOtherGclkWrite, IsProgrammableSetup);
    FlattenPrecedes(ss, IsOtherGclkWrite, IsProgrammableSetup, 3);
  }

  lemma OscillatorsBeforeGclk0(ss: seq<seq<Event>>)
    requires ShapedStages(ss)
    ensures Precedes(Flatten(ss), IsOscSetup, IsGclk0Write)
  {
    forall m | 6 < m < |ss|
      ensures NoneIn(ss[m], IsOscSetup)
    {
      assert m == 7 || m == 8;
    }
    forall m | 0 <= m < 6
      ensures NoneIn(ss[m], IsGclk0Write)
    {
      assert m == 0 || m == 1 || m == 2 || m == 3 || m == 4 || m == 5;
    }
    NoneInPrecedes(ss[6], IsOscSetup, IsGclk0Write);
    FlattenPrecedes(ss, IsOscSetup, IsGclk0Write, 6);
  }

  lemma GclksBeforeDividers(ss: seq<seq<Event>>)
    requires ShapedStages(ss)
    ensures Precedes(Flatten(ss), IsGclkWrite, IsPmDiv)
  {
    forall m | 7 < m < |ss|
      ensures NoneIn(ss[m], IsGclkWrite)
    {
      assert m == 8;
    }
    forall m | 0 <= m < 7
      ensures NoneIn(ss[m], IsPmDiv)
    {
      assert m == 0 || m == 1 || m == 2 || m == 3 || m == 4 || m == 5 || m == 6;
    }
    NoneInPrecedes(ss[7], IsGclkWrite, IsPmDiv);
    FlattenPrecedes(ss, IsGclkWrite, IsPmDiv, 7);
  }

  lemma OnDemandLast(ss: seq<seq<Event>>)
    requires ShapedStages(ss)
    ensures Precedes(Flatten(ss), IsNotOnDemandSet, IsOnDemandSet)
  {
    forall m | 0 <= m < 8
      ensures NoneIn(ss[m], IsOnDemandSet)
    {
      assert m == 0 || m == 1 || m == 2 || m == 3 || m == 4 || m == 5 || m == 6 || m == 7;
    }
    NoneInPrecedes(ss[8], IsNotOnDemandSet, IsOnDemandSet);
    FlattenPrecedes(ss, IsNotOnDemandSet, IsOnDemandSet, 8);
  }

  /**
   * The order soc_sam0_clock_init promises: every fixed oscillator is
   * configured and ready before any generator is written; GCLK1..8 are
   * set up before the DFLL and FDPLL are routed or configured; GCLK0, the
   * CPU clock, only after every oscillator is configured and ready; the
   * CPU and APB dividers after every generator; ONDEMAND after everything.
   */
  lemma BringUpOrdered(c: ClockConfig)
    requires ValidConfig(c)
    ensures Precedes(BringUpTrace(c), IsFixedOscSetup, IsGclkWrite)
    ensures Precedes(BringUpTrace(c), IsOtherGclkWrite, IsProgrammableSetup)
    ensures Precedes(BringUpTrace(c), IsOscSetup, IsGclk0Write)
    ensures Precedes(BringUpTrace(c), IsGclkWrite, IsPmDiv)
    ensures Precedes(BringUpTrace(c), IsNotOnDemandSet, IsOnDemandSet)
  {
    StageShapes(c);
    FixedOscBeforeGclks(Stages(c));
    GclksBeforeProgrammable(Stages(c));
    OscillatorsBeforeGclk0(Stages(c));
    GclksBeforeDividers(Stages(c));
    OnDemandLast(Stages(c));
  }

  // ---------------------------------------------------------------------
  // What the trace writes

  lemma ShapedPmDivs(ss: seq<seq<Event>>)
    requires ShapedStages(ss)
    ensures Filter(Flatten(ss), IsPmDiv) == ss[7]
  {
    forall m | 0 <= m < |ss| && m != 7
      ensures NoneIn(ss[m], IsPmDiv)
    {
      assert m == 0 || m == 1 || m == 2 || m == 3 || m == 4 || m == 5 || m == 6 || m == 8;
    }
    FilterOneStage(ss, IsPmDiv, 7);
    FilterAll(ss[7], IsPmDiv);
  }

  /** The CPU and the three APB buses all get the same divider exponent, and it divides GCLK0's source down to the CPU clock. */
  lemma DividersUniform(c: ClockConfig)
    requires ValidConfig(c)
    ensures var e := CpuExponent(c);
            e <= 7 && Pow2(e) == c.gclks[0].value.srcFreq / c.cpuFreq
            && Filter(BringUpTrace(c), IsPmDiv)
               == [Wr(PmDiv(Cpu, e)), Wr(PmDiv(ApbA, e)), Wr(PmDiv(ApbB, e)), Wr(PmDiv(ApbC, e))]
  {
    StageShapes(c);
    assert Stages(c)[7] == DividerEvents(CpuExponent(c));
    ShapedPmDivs(Stages(c));
  }

  lemma ShapedOnDemandWrites(ss: seq<seq<Event>>)
    requires ShapedStages(ss)
    ensures Filter(Flatten(ss), IsOnDemandWrite) == Filter(ss[1], IsOnDemandWrite) + ss[8]
  {
    forall m | 0 <= m < |ss| && m != 1 && m != 8
      ensures NoneIn(ss[m], IsOnDemandWrite)
    {
      assert m == 0 || m == 2 || m == 3 || m == 4 || m == 5 || m == 6 || m == 7;
    }
    FilterTwoStages(ss, IsOnDemandWrite, 1, 8);
    FilterAll(ss[8], IsOnDemandWrite);
  }

  lemma FixedOscOnDemand(c: ClockConfig)
    requires Osc8mPrescaler(c.osc8mFreq).Some?
    ensures Filter(FixedOscEvents(c), IsOnDemandWrite) == [Wr(OnDemand(Osc8m, false))]
  {
    var a := Osc8mEvents(c.osc8mFreq);
    var b := Osc32kEvents(c.osc32kFreq, c.fuses.osc32kCal);
    var x := XoscEvents(c.xoscFreq);
    var y := Xosc32kEvents(c.xosc32kFreq);
    var rest := b + x + y;
    assert FixedOscEvents(c) == a + rest;
    assert NoneIn(rest, IsOnDemandWrite);
    FilterSkipSuffix(a, rest, IsOnDemandWrite);
    assert a == [a[0]] + [a[1]];
    FilterAppend([a[0]], [a[1]], IsOnDemandWrite);
    FilterSingle(a[0], IsOnDemandWrite);
    FilterSingle(a[1], IsOnDemandWrite);
  }

  lemma OnDemandCover(c: ClockConfig, o: Osc)
    ensures Wr(OnDemand(o, true)) in OnDemandEvents(c) <==> OnDemandEnabled(c, o)
  {
  }

  /**
   * ONDEMAND is cleared on OSC8M while the fixed oscillators are set up,
   * and at the end it is set on exactly the oscillators that are
   * configured, once each, in the order OSC8M, OSC32K, XOSC32K, XOSC,
   * DFLL48M, FDPLL96M.
   */
  lemma OnDemandWrites(c: ClockConfig)
    requires ValidConfig(c)
    ensures Filter(BringUpTrace(c), IsOnDemandWrite) == [Wr(OnDemand(Osc8m, false))] + OnDemandEvents(c)
    ensures forall o :: Wr(OnDemand(o, true)) in BringUpTrace(c) <==> OnDemandEnabled(c, o)
  {
    StageShapes(c);
    assert Stages(c)[1] == FixedOscEvents(c) && Stages(c)[8] == OnDemandEvents(c);
    ShapedOnDemandWrites(Stages(c));
    FixedOscOnDemand(c);
    forall o
      ensures Wr(OnDemand(o, true)) in BringUpTrace(c) <==> OnDemandEnabled(c, o)
    {
      OnDemandCover(c, o);
      if Wr(OnDemand(o, true)) in BringUpTrace(c) {
        FilterMember(BringUpTrace(c), IsOnDemandWrite, Wr(OnDemand(o, true)));
      }
      if OnDemandEnabled(c, o) {
        FilterSubset(BringUpTrace(c), IsOnDemandWrite, Wr(OnDemand(o, true)));
      }
    }
  }

  lemma ShapedProgrammableAccesses(ss: seq<seq<Event>>)
    requires ShapedStages(ss)
    ensures Filter(Flatten(ss), IsDfllAccess) == Filter(ss[4], IsDfllAccess) + Filter(ss[8], IsDfllAccess)
    ensures Filter(Flatten(ss), IsDpllAccess) == Filter(ss[4], IsDpllAccess) + Filter(ss[8], IsDpllAccess)
  {
    ShapedDfllAccesses(ss);
    ShapedDpllAccesses(ss);
  }

  lemma ShapedDfllAccesses(ss: seq<seq<Event>>)
    requires ShapedStages(ss)
    ensures Filter(Flatten(ss), IsDfllAccess) == Filter(ss[4], IsDfllAccess) + Filter(ss[8], IsDfllAccess)
  {
    forall m | 0 <= m < |ss| && m != 4 && m != 8
      ensures NoneIn(ss[m], IsDfllAccess)
    {
      assert m == 0 || m == 1 || m == 2 || m == 3 || m == 5 || m == 6 || m == 7;
    }
    FilterTwoStages(ss, IsDfllAccess, 4, 8);
  }

  lemma ShapedDpllAccesses(ss: seq<seq<Event>>)
    requires ShapedStages(ss)
    ensures Filter(Flatten(ss), IsDpllAccess) == Filter(ss[4], IsDpllAccess) + Filter(ss[8], IsDpllAccess)
  {
    forall m | 0 <= m < |ss| && m != 4 && m != 8
      ensures NoneIn(ss[m], IsDpllAccess)
    {
      assert m == 0 || m == 1 || m == 2 || m == 3 || m == 5 || m == 6 || m == 7;
    }
    FilterTwoStages(ss, IsDpllAccess, 4, 8);
  }

  lemma FilterSingle(e: Event, p: Event -> bool)
    ensures Filter([e], p) == if p(e) then [e] else []
  {
    assert [e][..0] == [];
  }

  lemma FilterOnDemandIf(b: bool, o: Osc, p: Event -> bool)
    ensures Filter(OnDemandIf(b, o), p) == if b && p(Wr(OnDemand(o, true))) then OnDemandIf(b, o) else []
  {
    if b {
      FilterSingle(Wr(OnDemand(o, true)), p);
    }
  }

  lemma FilterSkipPrefix(a: seq<Event>, b: seq<Event>, p: Event -> bool)
    requires NoneIn(a, p)
    ensures Filter(a + b, p) == Filter(b, p)
  {
    FilterAppend(a, b, p);
    FilterNone(a, p);
  }

  lemma FilterSkipSuffix(a: seq<Event>, b: seq<Event>, p: Event -> bool)
    requires NoneIn(b, p)
    ensures Filter(a + b, p) == Filter(a, p)
  {
    FilterAppend(a, b, p);
    FilterNone(b, p);
  }

  lemma DfllOnDemandTail(c: ClockConfig)
    ensures Filter(OnDemandIf(c.dfll.Some?, Dfll48m)
                   + OnDemandIf(c.fdpll.Some? && c.fdpll.value.refFreq != 0, Fdpll96m), IsDfllAccess)
            == OnDemandIf(c.dfll.Some?, Dfll48m)
  {
    FilterSkipSuffix(OnDemandIf(c.dfll.Some?, Dfll48m),
                     OnDemandIf(c.fdpll.Some? && c.fdpll.value.refFreq != 0, Fdpll96m), IsDfllAccess);
    FilterOnDemandIf(c.dfll.Some?, Dfll48m, IsDfllAccess);
  }

  /** Of the ONDEMAND writes only the DFLL48M one touches the DFLL. */
  lemma DfllOnDemandFilter(c: ClockConfig)
    ensures Filter(OnDemandEvents(c), IsDfllAccess) == OnDemandIf(c.dfll.Some?, Dfll48m)
  {
    var pre := OnDemandIf(true, Osc8m) + OnDemandIf(c.osc32kFreq != 0, Osc32k)
      + OnDemandIf(c.xosc32kFreq != 0, Xosc32k) + OnDemandIf(c.xoscFreq != 0, Xosc);
    var tail := OnDemandIf(c.dfll.Some?, Dfll48m)
      + OnDemandIf(c.fdpll.Some? && c.fdpll.value.refFreq != 0, Fdpll96m);
    Extended(pre, OnDemandIf(c.dfll.Some?, Dfll48m),
             OnDemandIf(c.fdpll.Some? && c.fdpll.value.refFreq != 0, Fdpll96m));
    FilterSkipPrefix(pre, tail, IsDfllAccess);
    DfllOnDemandTail(c);
  }

  /** Of the ONDEMAND writes only the FDPLL96M one touches the FDPLL. */
  lemma DpllOnDemandFilter(c: ClockConfig)
    ensures Filter(OnDemandEvents(c), IsDpllAccess)
            == OnDemandIf(c.fdpll.Some? && c.fdpll.value.refFreq != 0, Fdpll96m)
  {
    var pre := OnDemandIf(true, Osc8m) + OnDemandIf(c.osc32kFreq != 0, Osc32k)
      + OnDemandIf(c.xosc32kFreq != 0, Xosc32k) + OnDemandIf(c.xoscFreq != 0, Xosc)
      + OnDemandIf(c.dfll.Some?, Dfll48m);
    var mine := OnDemandIf(c.fdpll.Some? && c.fdpll.value.refFreq != 0, Fdpll96m);
    assert OnDemandEvents(c) == pre + mine;
    FilterSkipPrefix(pre, mine, IsDpllAccess);
    FilterOnDemandIf(c.fdpll.Some? && c.fdpll.value.refFreq != 0, Fdpll96m, IsDpllAccess);
  }

  /** The DFLL48M accesses soc_sam0_dfll_init makes, without its sync wait. */
  function DfllAccessSeq(d: DfllCfg, fuses: Fuses, waitLock: bool): seq<Event>
    requires DfllOk(d)
  {
    [Wr(DFLL_ENABLE_ONLY), Wr(DfllVal(fuses.dfllCoarse, fuses.dfllFine))]
    + (match d.reference
       case None => []
       case Some(r) =>
         [Wr(ClkCtrlWrite(ClkCtrl(r.gen, true, CLKCTRL_ID_DFLL48))),
          Wr(DfllMul(31, 511, DfllMultiplier(d.freq, r.freq)))])
    + [Wr(DfllCtrl(true, false, true, waitLock, d.reference.Some?))]
  }

  /** A routing write, its sync wait and a register write: the wait is dropped. */
  lemma FilterSkipsSync(a: Event, b: Event, p: Event -> bool)
    requires p(a) && p(b) && !p(SyncGclk)
    ensures Filter([a, SyncGclk, b], p) == [a, b]
  {
    assert [a, SyncGclk, b] == [a] + [SyncGclk] + [b];
    FilterAppend([a] + [SyncGclk], [b], p);
    FilterAppend([a], [SyncGclk], p);
    FilterSingle(a, p);
    FilterSingle(SyncGclk, p);
    FilterSingle(b, p);
  }

  lemma DfllAccessesOf(d: Option<DfllCfg>, fuses: Fuses, waitLock: bool)
    requires d.Some? ==> DfllOk(d.value)
    ensures Filter(DfllEvents(d, fuses, waitLock), IsDfllAccess)
            == if d.Some? then DfllAccessSeq(d.value, fuses, waitLock) else []
  {
    if d.Some? {
      var v := d.value;
      var head := [Wr(DFLL_ENABLE_ONLY), Wr(DfllVal(fuses.dfllCoarse, fuses.dfllFine))];
      var tail := [Wr(DfllCtrl(true, false, true, waitLock, v.reference.Some?))];
      var mid := match v.reference
        case None => []
        case Some(r) =>
          [Wr(ClkCtrlWrite(ClkCtrl(r.gen, true, CLKCTRL_ID_DFLL48))), SyncGclk,
           Wr(DfllMul(31, 511, DfllMultiplier(v.freq, r.freq)))];
      var midAccess := match v.reference
        case None => []
        case Some(r) =>
          [Wr(ClkCtrlWrite(ClkCtrl(r.gen, true, CLKCTRL_ID_DFLL48))),
           Wr(DfllMul(31, 511, DfllMultiplier(v.freq, r.freq)))];
      assert DfllEvents(d, fuses, waitLock) == head + mid + tail;
      assert DfllAccessSeq(v, fuses, waitLock) == head + midAccess + tail;
      assert Filter(mid, IsDfllAccess) == midAccess by {
        if v.reference.Some? {
          var r := v.reference.value;
          FilterSkipsSync(Wr(ClkCtrlWrite(ClkCtrl(r.gen, true, CLKCTRL_ID_DFLL48))),
                          Wr(DfllMul(31, 511, DfllMultiplier(v.freq, r.freq))), IsDfllAccess);
        }
      }
      assert Filter(head, IsDfllAccess) == head by {
        FilterAll(head, IsDfllAccess);
      }
      assert Filter(tail, IsDfllAccess) == tail by {
        FilterAll(tail, IsDfllAccess);
      }
      FilterAppend(head + mid, tail, IsDfllAccess);
      FilterAppend(head, mid, IsDfllAccess);
    }
  }

  /**
   * The DFLL48M registers as the bring-up writes them: ENABLE alone
   * first (errata 1.2.1: ONDEMAND must be clear before anything else
   * touches the DFLL), then the fuse calibration, in closed loop the
   * reference routing and the rounded multiplier, then the final
   * DFLLCTRL, and ONDEMAND only at the very end.
   */
  lemma DfllAccesses(c: ClockConfig)
    requires ValidConfig(c)
    ensures c.dfll.None? ==> Filter(BringUpTrace(c), IsDfllAccess) == []
    ensures c.dfll.Some? ==>
      Filter(BringUpTrace(c), IsDfllAccess)
      == DfllAccessSeq(c.dfll.value, c.fuses, c.dfllWaitLock) + [Wr(OnDemand(Dfll48m, true))]
    ensures c.dfll.Some? ==> Filter(BringUpTrace(c), IsDfllAccess)[0] == Wr(DFLL_ENABLE_ONLY)
  {
    var ss := Stages(c);
    StageShapes(c);
    ShapedProgrammableAccesses(ss);
    assert Filter(ss[4], IsDfllAccess)
           == if c.dfll.Some? then DfllAccessSeq(c.dfll.value, c.fuses, c.dfllWaitLock) else [] by {
      assert ss[4] == DfllEvents(c.dfll, c.fuses, c.dfllWaitLock) + FdpllEvents(c.fdpll);
      DfllAccessesOf(c.dfll, c.fuses, c.dfllWaitLock);
      FilterAppend(DfllEvents(c.dfll, c.fuses, c.dfllWaitLock), FdpllEvents(c.fdpll), IsDfllAccess);
      FdpllTouchesNoDfll(c.fdpll);
    }
    assert Filter(ss[8], IsDfllAccess) == OnDemandIf(c.dfll.Some?, Dfll48m) by {
      assert ss[8] == OnDemandEvents(c);
      DfllOnDemandFilter(c);
    }
  }

  lemma FdpllTouchesNoDfll(f: Option<FdpllCfg>)
    requires f.Some? ==> FdpllOk(f.value)
    ensures Filter(FdpllEvents(f), IsDfllAccess) == []
  {
    FilterNone(FdpllEvents(f), IsDfllAccess);
  }

  /** A routing write followed by its sync wait: the wait is dropped. */
  lemma FilterDropSync(a: Event, p: Event -> bool)
    requires p(a) && !p(SyncGclk)
    ensures Filter([a, SyncGclk], p) == [a]
  {
    assert [a, SyncGclk][..1] == [a];
    FilterSingle(a, p);
  }

  /** The FDPLL96M accesses soc_sam0_fdpll_init makes, without its sync wait. */
  function DpllAccessSeq(p: FdpllCfg): seq<Event>
    requires FdpllOk(p)
  {
    var input := DpllInputOf(p);
    var ratio := FdpllRatio(p.freq, input.clkRef);
    (if p.refClk == RefGclk then [Wr(ClkCtrlWrite(ClkCtrl(p.refGen, true, CLKCTRL_ID_FDPLL)))] else [])
    + [Wr(DpllRatio(LdrField(ratio.ldr), ratio.ldrFrac)), Wr(DpllCtrlB(p.refClk, input.divField)),
       Wr(DpllCtrlA(true, false))]
  }

  lemma FdpllAccessesOf(f: Option<FdpllCfg>)
    requires f.Some? ==> FdpllOk(f.value)
    ensures Filter(FdpllEvents(f), IsDpllAccess) == if f.Some? then DpllAccessSeq(f.value) else []
  {
    if f.Some? {
      var p := f.value;
      var input := DpllInputOf(p);
      var ratio := FdpllRatio(p.freq, input.clkRef);
      var route := Wr(ClkCtrlWrite(ClkCtrl(p.refGen, true, CLKCTRL_ID_FDPLL)));
      var head := if p.refClk == RefGclk then [route, SyncGclk] else [];
      var tail := [Wr(DpllRatio(LdrField(ratio.ldr), ratio.ldrFrac)), Wr(DpllCtrlB(p.refClk, input.divField)),
                   Wr(DpllCtrlA(true, false))];
      assert FdpllEvents(f) == head + tail;
      FilterAppend(head, tail, IsDpllAccess);
      FilterAll(tail, IsDpllAccess);
      if p.refClk == RefGclk {
        FilterDropSync(route, IsDpllAccess);
      }
    }
  }

  lemma DfllTouchesNoDpll(d: Option<DfllCfg>, fuses: Fuses, waitLock: bool)
    requires d.Some? ==> DfllOk(d.value)
    ensures Filter(DfllEvents(d, fuses, waitLock), IsDpllAccess) == []
  {
    FilterNone(DfllEvents(d, fuses, waitLock), IsDpllAccess);
  }

  /**
   * The FDPLL96M registers as the bring-up writes them: with a generic
   * clock reference its routing first, then DPLLRATIO, DPLLCTRLB and
   * ENABLE in DPLLCTRLA, and ONDEMAND only at the very end.
   */
  lemma DpllAccesses(c: ClockConfig)
    requires ValidConfig(c)
    ensures c.fdpll.None? ==> Filter(BringUpTrace(c), IsDpllAccess) == []
    ensures c.fdpll.Some? ==>
      Filter(BringUpTrace(c), IsDpllAccess) == DpllAccessSeq(c.fdpll.value) + [Wr(OnDemand(Fdpll96m, true))]
  {
    var ss := Stages(c);
    StageShapes(c);
    ShapedProgrammableAccesses(ss);
    assert Filter(ss[4], IsDpllAccess) == if c.fdpll.Some? then DpllAccessSeq(c.fdpll.value) else [] by {
      assert ss[4] == DfllEvents(c.dfll, c.fuses, c.dfllWaitLock) + FdpllEvents(c.fdpll);
      FdpllAccessesOf(c.fdpll);
      DfllTouchesNoDpll(c.dfll, c.fuses, c.dfllWaitLock);
      FilterAppend(DfllEvents(c.dfll, c.fuses, c.dfllWaitLock), FdpllEvents(c.fdpll), IsDpllAccess);
    }
    assert Filter(ss[8], IsDpllAccess) == OnDemandIf(c.fdpll.Some?, Fdpll96m) by {
      assert ss[8] == OnDemandEvents(c);
      DpllOnDemandFilter(c);
    }
  }

  // ---------------------------------------------------------------------
  // The generators

  /** The GENCTRL write that sets up generator n. */
  function GenCtrlOf(n: nat, g: Gclk): Event
    requires GclkOk(g)
  {
    Wr(GenCtrl(n, g.src, true, true, GclkDividerAsWritten(g.srcFreq, g.freq).divsel))
  }

  /** The GENCTRL writes for the configured generators among lo .. hi - 1, in index order. */
  function GenCtrlsFor(gclks: seq<Option<Gclk>>, lo: nat, hi: nat): seq<Event>
    requires lo <= hi <= |gclks| && GclksOk(gclks)
    decreases hi - lo
  {
    if lo == hi then []
    else
      GenCtrlsFor(gclks, lo, hi - 1)
      + (if gclks[hi - 1].Some? then [GenCtrlOf(hi - 1, gclks[hi - 1].value)] else [])
  }

  /** Each entry of r is the GENCTRL write of a configured generator in lo .. hi - 1. */
  predicate GenCtrlEntries(r: seq<Event>, gclks: seq<Option<Gclk>>, lo: nat, hi: nat)
    requires GclksOk(gclks)
  {
    forall i :: 0 <= i < |r| ==>
      r[i].Wr? && r[i].w.GenCtrl? && lo <= r[i].w.id < hi && r[i].w.id < |gclks|
      && gclks[r[i].w.id].Some? && GclkOk(gclks[r[i].w.id].value)
      && r[i] == GenCtrlOf(r[i].w.id, gclks[r[i].w.id].value)
  }

  /** The generator id a GENCTRL write names, -1 for any other event. */
  function GenIdOf(e: Event): int
  {
    if e.Wr? && e.w.GenCtrl? then e.w.id else -1
  }

  /** The generator ids in r strictly increase. */
  predicate IdsIncreasing(r: seq<Event>) {
    forall i, j :: 0 <= i < j < |r| ==> GenIdOf(r[i]) < GenIdOf(r[j])
  }

  lemma {:induction false} GenCtrlsForEntries(gclks: seq<Option<Gclk>>, lo: nat, hi: nat)
    requires lo <= hi <= |gclks| && GclksOk(gclks)
    ensures GenCtrlEntries(GenCtrlsFor(gclks, lo, hi), gclks, lo, hi)
    decreases hi - lo
  {
    if lo < hi {
      GenCtrlsForEntries(gclks, lo, hi - 1);
      var r0 := GenCtrlsFor(gclks, lo, hi - 1);
      if gclks[hi - 1].Some? {
        var x := GenCtrlOf(hi - 1, gclks[hi - 1].value);
        var r := r0 + [x];
        assert GenCtrlsFor(gclks, lo, hi) == r;
        assert GclkOk(gclks[hi - 1].value);
        forall i | 0 <= i < |r|
          ensures r[i].Wr? && r[i].w.GenCtrl? && lo <= r[i].w.id < hi && r[i].w.id < |gclks|
                  && gclks[r[i].w.id].Some? && GclkOk(gclks[r[i].w.id].value)
                  && r[i] == GenCtrlOf(r[i].w.id, gclks[r[i].w.id].value)
        {
          if i < |r0| {
            assert r[i] == r0[i];
          } else {
            assert r[i] == x;
          }
        }
      } else {
        assert GenCtrlsFor(gclks, lo, hi) == r0;
      }
    }
  }

  lemma {:induction false} GenCtrlsForIncreasing(gclks: seq<Option<Gclk>>, lo: nat, hi: nat)
    requires lo <= hi <= |gclks| && GclksOk(gclks)
    ensures IdsIncreasing(GenCtrlsFor(gclks, lo, hi))
    decreases hi - lo
  {
    if lo < hi {
      GenCtrlsForIncreasing(gclks, lo, hi - 1);
      GenCtrlsForEntries(gclks, lo, hi - 1);
      var r0 := GenCtrlsFor(gclks, lo, hi - 1);
      if gclks[hi - 1].Some? {
        var x := GenCtrlOf(hi - 1, gclks[hi - 1].value);
        var r := r0 + [x];
        assert GenCtrlsFor(gclks, lo, hi) == r;
        assert GenIdOf(x) == hi - 1;
        forall i, j | 0 <= i < j < |r|
          ensures GenIdOf(r[i]) < GenIdOf(r[j])
        {
          assert r[i] == r0[i];
          if j < |r0| {
            assert r[j] == r0[j];
          } else {
            assert r[j] == x;
            assert GenIdOf(r0[i]) == r0[i].w.id < hi - 1;
          }
        }
      } else {
        assert GenCtrlsFor(gclks, lo, hi) == r0;
      }
    }
  }

  /** Every configured generator in lo .. hi - 1 has its GENCTRL write in GenCtrlsFor. */
  lemma {:induction false} GenCtrlsForComplete(gclks: seq<Option<Gclk>>, lo: nat, hi: nat)
    requires lo <= hi <= |gclks| && GclksOk(gclks)
    ensures forall n :: lo <= n < hi && gclks[n].Some? ==> GenCtrlOf(n, gclks[n].value) in GenCtrlsFor(gclks, lo, hi)
    decreases hi - lo
  {
    if lo < hi {
      GenCtrlsForComplete(gclks, lo, hi - 1);
    }
  }

  /** One step of an induction over a sequence built by appending blocks. */
  lemma FilterStep(t: seq<Event>, a: seq<Event>, b: seq<Event>, r: seq<Event>, fa: seq<Event>, fb: seq<Event>,
                   p: Event -> bool)
    requires t == a + b && r == fa + fb
    requires Filter(a, p) == fa && Filter(b, p) == fb
    ensures Filter(t, p) == r
  {
    FilterAppend(a, b, p);
  }

  lemma GclkEventsForGenCtrl(gclks: seq<Option<Gclk>>, n: nat)
    requires n < |gclks| && GclksOk(gclks)
    ensures Filter(GclkEventsFor(gclks, n), IsGenCtrl)
            == if gclks[n].Some? then [GenCtrlOf(n, gclks[n].value)] else []
  {
    if gclks[n].Some? {
      assert GclkOk(gclks[n].value);
      GclkSetupGenCtrl(n, gclks[n].value);
    }
  }

  lemma GclkSetupGenCtrl(n: nat, g: Gclk)
    requires GclkOk(g)
    ensures Filter(GclkSetupEvents(n, g), IsGenCtrl) == [GenCtrlOf(n, g)]
  {
    var p := GclkDividerAsWritten(g.srcFreq, g.freq);
    var head := if p.writesGenDiv then [Wr(GenDiv(n, p.divField)), SyncGclk] else [];
    var tail := [GenCtrlOf(n, g), SyncGclk];
    assert GclkSetupEvents(n, g) == head + tail;
    FilterSkipPrefix(head, tail, IsGenCtrl);
    FilterDropSync(GenCtrlOf(n, g), IsGenCtrl);
  }

  lemma {:induction false} GclkRangeGenCtrls(gclks: seq<Option<Gclk>>, lo: nat, hi: nat)
    requires lo <= hi <= |gclks| && GclksOk(gclks)
    ensures Filter(GclkRangeEvents(gclks, lo, hi), IsGenCtrl) == GenCtrlsFor(gclks, lo, hi)
    decreases hi - lo
  {
    if lo < hi {
      GclkRangeGenCtrls(gclks, lo, hi - 1);
      GclkRangeGenCtrlsStep(gclks, lo, hi);
    }
  }

  lemma GclkRangeGenCtrlsStep(gclks: seq<Option<Gclk>>, lo: nat, hi: nat)
    requires lo < hi <= |gclks| && GclksOk(gclks)
    requires Filter(GclkRangeEvents(gclks, lo, hi - 1), IsGenCtrl) == GenCtrlsFor(gclks, lo, hi - 1)
    ensures Filter(GclkRangeEvents(gclks, lo, hi), IsGenCtrl) == GenCtrlsFor(gclks, lo, hi)
  {
    var last := if gclks[hi - 1].Some? then [GenCtrlOf(hi - 1, gclks[hi - 1].value)] else [];
    GclkEventsForGenCtrl(gclks, hi - 1);
    assert GclkRangeEvents(gclks, lo, hi) == GclkRangeEvents(gclks, lo, hi - 1) + GclkEventsFor(gclks, hi - 1);
    assert GenCtrlsFor(gclks, lo, hi) == GenCtrlsFor(gclks, lo, hi - 1) + last;
    FilterStep(GclkRangeEvents(gclks, lo, hi), GclkRangeEvents(gclks, lo, hi - 1), GclkEventsFor(gclks, hi - 1),
               GenCtrlsFor(gclks, lo, hi), GenCtrlsFor(gclks, lo, hi - 1), last, IsGenCtrl);
  }

  lemma ShapedGenCtrls(ss: seq<seq<Event>>)
    requires ShapedStages(ss)
    ensures Filter(Flatten(ss), IsGenCtrl) == Filter(ss[3], IsGenCtrl) + Filter(ss[6], IsGenCtrl)
  {
    forall m | 0 <= m < |ss| && m != 3 && m != 6
      ensures NoneIn(ss[m], IsGenCtrl)
    {
      assert m == 0 || m == 1 || m == 2 || m == 4 || m == 5 || m == 7 || m == 8;
    }
    FilterTwoStages(ss, IsGenCtrl, 3, 6);
  }

  /**
   * Every configured generator among GCLK1..8 gets exactly one GENCTRL
   * write, in index order, and GCLK0's comes last.
   */
  lemma GenCtrlSequence(c: ClockConfig)
    requires ValidConfig(c)
    ensures Filter(BringUpTrace(c), IsGenCtrl)
            == GenCtrlsFor(c.gclks, 1, 9) + [GenCtrlOf(0, c.gclks[0].value)]
  {
    var ss := Stages(c);
    StageShapes(c);
    ShapedGenCtrls(ss);
    assert Filter(ss[3], IsGenCtrl) == GenCtrlsFor(c.gclks, 1, 9) by {
      assert ss[3] == GclkRangeEvents(c.gclks, 1, 9);
      GclkRangeGenCtrls(c.gclks, 1, 9);
    }
    assert Filter(ss[6], IsGenCtrl) == [GenCtrlOf(0, c.gclks[0].value)] by {
      assert ss[6] == GclkSetupEvents(0, c.gclks[0].value);
      assert GclkOk(c.gclks[0].value);
      GclkSetupGenCtrl(0, c.gclks[0].value);
    }
  }

  // ---------------------------------------------------------------------
  // The flash wait states

  lemma ShapedFlash(ss: seq<seq<Event>>)
    requires ShapedStages(ss) && |ss[0]| >= 1
    ensures Filter(Flatten(ss), IsFlashWrite) == ss[0]
    ensures Flatten(ss)[0] == ss[0][0]
  {
    forall m | 0 <= m < |ss| && m != 0
      ensures NoneIn(ss[m], IsFlashWrite)
    {
      assert m == 1 || m == 2 || m == 3 || m == 4 || m == 5 || m == 6 || m == 7 || m == 8;
    }
    FilterOneStage(ss, IsFlashWrite, 0);
    FilterAll(ss[0], IsFlashWrite);
  }

  /** The flash wait states are the first thing written, and the only time. */
  lemma FlashWaitFirst(c: ClockConfig)
    requires ValidConfig(c)
    ensures |BringUpTrace(c)| >= 1
    ensures BringUpTrace(c)[0] == Wr(FlashWait(FlashWaitStates(c.cpuFreq)))
    ensures Filter(BringUpTrace(c), IsFlashWrite) == [BringUpTrace(c)[0]]
  {
    StageShapes(c);
    assert Stages(c)[0] == FlashWaitEvents(c.cpuFreq);
    ShapedFlash(Stages(c));
  }

  // ---------------------------------------------------------------------
  // Synchronisation with the GCLK register interface

  /** A write to GENDIV, GENCTRL or CLKCTRL, the registers behind STATUS.SYNCBUSY. */
  predicate IsGclkRegWrite(e: Event) {
    e.Wr? && (e.w.GenDiv? || e.w.GenCtrl? || e.w.ClkCtrlWrite?)
  }

  /** Every GCLK register write in t is immediately followed by the wait for SYNCBUSY. */
  predicate SyncedAfter(t: seq<Event>) {
    forall i :: 0 <= i < |t| && IsGclkRegWrite(t[i]) ==> i + 1 < |t| && t[i + 1] == SyncGclk
  }

  lemma SyncedAppend(a: seq<Event>, b: seq<Event>)
    requires SyncedAfter(a) && SyncedAfter(b)
    ensures SyncedAfter(a + b)
  {
    var t := a + b;
    forall i | 0 <= i < |t| && IsGclkRegWrite(t[i])
      ensures i + 1 < |t| && t[i + 1] == SyncGclk
    {
      if i < |a| {
        assert t[i] == a[i] && t[i + 1] == a[i + 1];
      } else {
        assert t[i] == b[i - |a|] && t[i + 1] == b[i + 1 - |a|];
      }
    }
  }

  lemma SyncedNone(t: seq<Event>)
    requires NoneIn(t, IsGclkRegWrite)
    ensures SyncedAfter(t)
  {
    NoneInIndices(t, IsGclkRegWrite);
  }

  lemma {:induction false} FlattenSynced(ss: seq<seq<Event>>)
    requires forall m :: 0 <= m < |ss| ==> SyncedAfter(ss[m])
    ensures SyncedAfter(Flatten(ss))
  {
    if ss != [] {
      assert SyncedAfter(ss[0]);
      FlattenSynced(ss[1..]);
      SyncedAppend(ss[0], Flatten(ss[1..]));
    }
  }

  lemma GclkSetupSynced(n: nat, g: Gclk)
    requires GclkOk(g)
    ensures SyncedAfter(GclkSetupEvents(n, g))
  {
    var p := GclkDividerAsWritten(g.srcFreq, g.freq);
    var head := if p.writesGenDiv then [Wr(GenDiv(n, p.divField)), SyncGclk] else [];
    var tail := [GenCtrlOf(n, g), SyncGclk];
    assert GclkSetupEvents(n, g) == head + tail;
    SyncedAppend(head, tail);
  }

  lemma {:induction false} GclkRangeSynced(gclks: seq<Option<Gclk>>, lo: nat, hi: nat)
    requires lo <= hi <= |gclks| && GclksOk(gclks)
    ensures SyncedAfter(GclkRangeEvents(gclks, lo, hi))
    decreases hi - lo
  {
    if lo < hi {
      GclkRangeSynced(gclks, lo, hi - 1);
      assert GclkRangeEvents(gclks, lo, hi) == GclkRangeEvents(gclks, lo, hi - 1) + GclkEventsFor(gclks, hi - 1);
      if gclks[hi - 1].Some? {
        assert GclkOk(gclks[hi - 1].value);
        GclkSetupSynced(hi - 1, gclks[hi - 1].value);
      }
      SyncedAppend(GclkRangeEvents(gclks, lo, hi - 1), GclkEventsFor(gclks, hi - 1));
    }
  }

  lemma DfllSynced(d: Option<DfllCfg>, fuses: Fuses, waitLock: bool)
    requires d.Some? ==> DfllOk(d.value)
    ensures SyncedAfter(DfllEvents(d, fuses, waitLock))
  {
    if d.Some? {
      var head := [Wr(DFLL_ENABLE_ONLY), Wr(DfllVal(fuses.dfllCoarse, fuses.dfllFine))];
      var mid := match d.value.reference
        case None => []
        case Some(r) =>
          [Wr(ClkCtrlWrite(ClkCtrl(r.gen, true, CLKCTRL_ID_DFLL48))), SyncGclk,
           Wr(DfllMul(31, 511, DfllMultiplier(d.value.freq, r.freq)))];
      var tail := [Wr(DfllCtrl(true, false, true, waitLock, d.value.reference.Some?))];
      assert DfllEvents(d, fuses, waitLock) == head + mid + tail;
      SyncedNone(head);
      SyncedNone(tail);
      SyncedAppend(head, mid);
      SyncedAppend(head + mid, tail);
    }
  }

  lemma FdpllSynced(f: Option<FdpllCfg>)
    requires f.Some? ==> FdpllOk(f.value)
    ensures SyncedAfter(FdpllEvents(f))
  {
    if f.Some? {
      var p := f.value;
      var input := DpllInputOf(p);
      var ratio := FdpllRatio(p.freq, input.clkRef);
      var head := if p.refClk == RefGclk then [Wr(ClkCtrlWrite(ClkCtrl(p.refGen, true, CLKCTRL_ID_FDPLL))), SyncGclk]
                  else [];
      var tail := [Wr(DpllRatio(LdrField(ratio.ldr), ratio.ldrFrac)), Wr(DpllCtrlB(p.refClk, input.divField)),
                   Wr(DpllCtrlA(true, false))];
      assert FdpllEvents(f) == head + tail;
      SyncedNone(tail);
      SyncedAppend(head, tail);
    }
  }

  lemma ShapedSynced(ss: seq<seq<Event>>)
    requires ShapedStages(ss)
    requires SyncedAfter(ss[3]) && SyncedAfter(ss[4]) && SyncedAfter(ss[6])
    ensures SyncedAfter(Flatten(ss))
  {
    forall m | 0 <= m < |ss| && m != 3 && m != 4 && m != 6
      ensures SyncedAfter(ss[m])
    {
      assert m == 0 || m == 1 || m == 2 || m == 5 || m == 7 || m == 8;
      SyncedNone(ss[m]);
    }
    FlattenSynced(ss);
  }

  /**
   * After every write to GENDIV, GENCTRL or CLKCTRL the bring-up waits
   * for STATUS.SYNCBUSY before touching anything else.
   */
  lemma GclkWritesSynced(c: ClockConfig)
    requires ValidConfig(c)
    ensures SyncedAfter(BringUpTrace(c))
  {
    StageShapes(c);
    StagesSynced(c);
    ShapedSynced(Stages(c));
  }

  lemma StagesSynced(c: ClockConfig)
    requires ValidConfig(c)
    ensures SyncedAfter(Stages(c)[3]) && SyncedAfter(Stages(c)[4]) && SyncedAfter(Stages(c)[6])
  {
    var ss := Stages(c);
    assert SyncedAfter(ss[3]) by {
      assert ss[3] == GclkRangeEvents(c.gclks, 1, 9);
      GclkRangeSynced(c.gclks, 1, 9);
    }
    assert SyncedAfter(ss[4]) by {
      assert ss[4] == DfllEvents(c.dfll, c.fuses, c.dfllWaitLock) + FdpllEvents(c.fdpll);
      DfllSynced(c.dfll, c.fuses, c.dfllWaitLock);
      FdpllSynced(c.fdpll);
      SyncedAppend(DfllEvents(c.dfll, c.fuses, c.dfllWaitLock), FdpllEvents(c.fdpll));
    }
    assert SyncedAfter(ss[6]) by {
      assert ss[6] == GclkSetupEvents(0, c.gclks[0].value);
      assert GclkOk(c.gclks[0].value);
      GclkSetupSynced(0, c.gclks[0].value);
    }
  }
}
