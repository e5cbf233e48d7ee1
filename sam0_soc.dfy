/**
 * The clock-subsystem selector that consumers pass to the SAM0 clock
 * controller: a type tag in bits 24..31 and the peripheral channel id in
 * bits 0..15 of one 32-bit word. The SAMD20 and SAMD21 SoC headers
 * define the same two masks, the same tag and the same encoder.
 */
module Sam0Soc {
  import opened Common

  /** The bits holding the selector's type tag. */
  const TYPE_MASK: bv32 := 0xFF00_0000
  /** The tag of a generic-clock output selector. */
  const TYPE_GCLK_OUT: bv32 := 0x0100_0000
  /** The bits holding a generic-clock output's channel id. */
  const GCLK_OUT_ID_MASK: bv32 := 0x0000_FFFF

  /**
   * The selector for generic-clock channel `id`. The tag lands in the type
   * byte for any id below 2^24, and the id reads back for any id that fits
   * the 16-bit id field.
   */
  function GclkSubsys(id: bv32): (r: bv32)
    ensures id < 0x0100_0000 ==> r & TYPE_MASK == TYPE_GCLK_OUT
    ensures id <= 0xFFFF ==> r & GCLK_OUT_ID_MASK == id
  {
    TYPE_GCLK_OUT | id
  }

  /** Whether a selector carries the generic-clock output tag. */
  predicate IsGclkOut(req: bv32) {
    req & TYPE_MASK == TYPE_GCLK_OUT
  }

  /** The channel id a generic-clock selector names: its low 16 bits. */
  function GclkOutId(req: bv32): (id: bv32)
    ensures id <= 0xFFFF
  {
    req & GCLK_OUT_ID_MASK
  }

  /**
   * Decoding a selector: the channel id when it carries the generic-clock
   * tag, nothing otherwise.
   */
  function DecodeSubsys(req: bv32): (r: Option<bv32>)
    ensures r.Some? <==> IsGclkOut(req)
    ensures r.Some? ==> r.value <= 0xFFFF && r.value == req & GCLK_OUT_ID_MASK
  {
    if IsGclkOut(req) then Some(GclkOutId(req)) else None
  }

  /** The two fields do not overlap, and the tag lies inside the type field. */
  lemma SelectorMasksDisjoint()
    ensures TYPE_MASK & GCLK_OUT_ID_MASK == 0
    ensures TYPE_GCLK_OUT & TYPE_MASK == TYPE_GCLK_OUT
    ensures TYPE_GCLK_OUT & GCLK_OUT_ID_MASK == 0
  {
  }

  /** Every 16-bit channel id survives encoding and decoding. */
  lemma SubsysRoundTrip(id: bv32)
    requires id <= 0xFFFF
    ensures DecodeSubsys(GclkSubsys(id)) == Some(id)
  {
  }

  /** Distinct 16-bit channel ids give distinct selectors. */
  lemma GclkSubsysInjective(a: bv32, b: bv32)
    requires a <= 0xFFFF && b <= 0xFFFF
    requires GclkSubsys(a) == GclkSubsys(b)
    ensures a == b
  {
    SubsysRoundTrip(a);
    SubsysRoundTrip(b);
  }
}
