/** The bit fields of the control register and of the configuration mask, and the facts about
    them that everything above uses, so that bit-vector reasoning stays in this file. */
module Bits {

  // Fields of the control register (driver/_pwm.h:76-111).
  const CNT_EN: bv32 := 0x2000
  const PRT_OE: bv32 := 0x4000
  const PLS_POL: bv32 := 0x400
  const PRESCALE_MSK: bv32 := 0x7F

  /** The control bits that configuration may change: prescale, polarity, enable and output. */
  const CONFIGURED_MSK: bv32 := 0x647F

  // Bits of the configuration mask (driver/pwm_core.h:36-48).
  const DUTY_TICKS: bv32 := 0x1
  const PERIOD_TICKS: bv32 := 0x2
  const POLARITY: bv32 := 0x4
  const START: bv32 := 0x8
  const STOP: bv32 := 0x10
  const DUTY_NS: bv32 := 0x40
  const DUTY_PERCENT: bv32 := 0x80
  const PERIOD_NS: bv32 := 0x100

  /** The mask bits that normalisation may change: ticks, nanoseconds and percent. */
  const NORMALISED_MSK: bv32 := 0x1C3

  predicate Has(word: bv32, bits: bv32) {
    word & bits != 0
  }

  /** `word &= ~bits`. */
  function Clear(word: bv32, bits: bv32): bv32 {
    word & !bits
  }

  /** Clearing one mask bit and setting another. */
  function Exchange(mask: bv32, gone: bv32, come: bv32): bv32 {
    Clear(mask, gone) | come
  }

  /* ----- the control register ----- */

  function Low7(ctrl: bv32): bv7 {
    (ctrl & PRESCALE_MSK) as bv7
  }

  function SetLow7(ctrl: bv32, field: bv7): bv32 {
    Clear(ctrl, PRESCALE_MSK) | (field as bv32)
  }

  /** The prescale field as a number. */
  function PrescaleField(ctrl: bv32): (k: nat)
    ensures k <= 127
  {
    Low7(ctrl) as nat
  }

  function WithPrescale(ctrl: bv32, k: nat): bv32
    requires k <= 127
  {
    SetLow7(ctrl, FieldOf(k))
  }

  /** A number below 128 as a seven-bit field, put together from four and three bits. */
  function FieldOf(k: nat): bv7
    requires k <= 127
  {
    ((k % 16) as bv4) as bv7 | (((k / 16) as bv3) as bv7 << 4)
  }

  function WithRun(ctrl: bv32, on: bool): bv32 {
    if on then ctrl | (CNT_EN | PRT_OE) else Clear(ctrl, CNT_EN | PRT_OE)
  }

  /** Active high clears the polarity bit. */
  function WithPolarity(ctrl: bv32, activeHigh: bool): bv32 {
    if activeHigh then Clear(ctrl, PLS_POL) else ctrl | PLS_POL
  }

  lemma Low7Written(ctrl: bv32, field: bv7)
    ensures Low7(SetLow7(ctrl, field)) == field
  {
  }

  lemma Low7Kept(ctrl: bv32, field: bv7, bits: bv32)
    requires bits & PRESCALE_MSK == 0
    ensures SetLow7(ctrl, field) & bits == ctrl & bits
  {
  }

  /** Two words that agree on some bits have the same of them. */
  lemma SameHas(a: bv32, b: bv32, bits: bv32)
    requires a & bits == b & bits
    ensures Has(a, bits) <==> Has(b, bits)
  {
  }

  lemma Bv4Value(k: nat)
    requires k < 16
    ensures (k as bv4) as nat == k
  {
  }

  lemma Bv3Value(k: nat)
    requires k < 8
    ensures (k as bv3) as nat == k
  {
  }

  lemma JoinValue(low: bv4, high: bv3)
    ensures (low as bv7 | (high as bv7 << 4)) as nat == low as nat + 16 * (high as nat)
  {
  }

  lemma FieldValue(k: nat)
    requires k <= 127
    ensures FieldOf(k) as nat == k
  {
    Bv4Value(k % 16);
    Bv3Value(k / 16);
    JoinValue((k % 16) as bv4, (k / 16) as bv3);
  }

  /** The control register by its fields; `rest` holds the bits configuration never touches. */
  datatype Control = Control(prescale: nat, activeLow: bool, enabled: bool, output: bool, rest: bv32)

  function Fields(ctrl: bv32): Control {
    Control(PrescaleField(ctrl), Has(ctrl, PLS_POL), Has(ctrl, CNT_EN), Has(ctrl, PRT_OE), ctrl & !CONFIGURED_MSK)
  }

  /** Where the fields lie: bits 0 to 6, 10, 13 and 14. */
  lemma FieldPlaces(ctrl: bv32)
    ensures var f := Fields(ctrl);
            && f.prescale == (ctrl & 0x7F) as bv7 as nat
            && (f.activeLow <==> (ctrl >> 10) & 1 == 1)
            && (f.enabled <==> (ctrl >> 13) & 1 == 1)
            && (f.output <==> (ctrl >> 14) & 1 == 1)
            && f.rest == ctrl & 0xFFFF_9B80
  {
  }

  /** Where the requests lie in a configuration mask: bits 0 to 4 and 6 to 8. */
  lemma MaskPlaces(mask: bv32)
    ensures Has(mask, DUTY_TICKS) <==> mask & 1 == 1
    ensures Has(mask, PERIOD_TICKS) <==> (mask >> 1) & 1 == 1
    ensures Has(mask, POLARITY) <==> (mask >> 2) & 1 == 1
    ensures Has(mask, START) <==> (mask >> 3) & 1 == 1
    ensures Has(mask, STOP) <==> (mask >> 4) & 1 == 1
    ensures Has(mask, DUTY_NS) <==> (mask >> 6) & 1 == 1
    ensures Has(mask, DUTY_PERCENT) <==> (mask >> 7) & 1 == 1
    ensures Has(mask, PERIOD_NS) <==> (mask >> 8) & 1 == 1
  {
  }

  lemma PrescaleReadBack(ctrl: bv32, k: nat)
    requires k <= 127
    ensures PrescaleField(WithPrescale(ctrl, k)) == k
  {
    hide FieldOf, Low7, SetLow7;
    FieldValue(k);
    Low7Written(ctrl, FieldOf(k));
  }

  lemma PrescaleKeeps(ctrl: bv32, k: nat, bits: bv32)
    requires k <= 127 && bits & PRESCALE_MSK == 0
    ensures WithPrescale(ctrl, k) & bits == ctrl & bits
  {
    hide FieldOf, SetLow7;
    Low7Kept(ctrl, FieldOf(k), bits);
  }

  lemma PrescaleHas(ctrl: bv32, k: nat, bits: bv32)
    requires k <= 127 && bits & PRESCALE_MSK == 0
    ensures Has(WithPrescale(ctrl, k), bits) <==> Has(ctrl, bits)
  {
    hide WithPrescale, Has;
    PrescaleKeeps(ctrl, k, bits);
    SameHas(WithPrescale(ctrl, k), ctrl, bits);
  }

  lemma PrescaleBits(ctrl: bv32, k: nat)
    requires k <= 127
    ensures var r := WithPrescale(ctrl, k);
            && PrescaleField(r) == k
            && (Has(r, CNT_EN) <==> Has(ctrl, CNT_EN))
            && (Has(r, PRT_OE) <==> Has(ctrl, PRT_OE))
            && (Has(r, PLS_POL) <==> Has(ctrl, PLS_POL))
            && r & !CONFIGURED_MSK == ctrl & !CONFIGURED_MSK
  {
    hide WithPrescale, PrescaleField, Has;
    PrescaleReadBack(ctrl, k);
    PrescaleHas(ctrl, k, CNT_EN);
    PrescaleHas(ctrl, k, PRT_OE);
    PrescaleHas(ctrl, k, PLS_POL);
    PrescaleKeeps(ctrl, k, !CONFIGURED_MSK);
  }

  /** Writing the prescale is read back, and disturbs no other field. */
  lemma PrescaleWritten(ctrl: bv32, k: nat)
    requires k <= 127
    ensures Fields(WithPrescale(ctrl, k)) == Fields(ctrl).(prescale := k)
  {
    PrescaleBits(ctrl, k);
  }

  lemma RunBits(ctrl: bv32, on: bool)
    ensures var r := WithRun(ctrl, on);
            && PrescaleField(r) == PrescaleField(ctrl)
            && (Has(r, CNT_EN) <==> on)
            && (Has(r, PRT_OE) <==> on)
            && (Has(r, PLS_POL) <==> Has(ctrl, PLS_POL))
            && r & !CONFIGURED_MSK == ctrl & !CONFIGURED_MSK
  {
    assert Low7(WithRun(ctrl, on)) == Low7(ctrl);
  }

  /** Starting sets both run bits, stopping clears both, and neither disturbs another field. */
  lemma RunWritten(ctrl: bv32, on: bool)
    ensures Fields(WithRun(ctrl, on)) == Fields(ctrl).(enabled := on, output := on)
  {
    RunBits(ctrl, on);
  }

  lemma PolarityBits(ctrl: bv32, activeHigh: bool)
    ensures var r := WithPolarity(ctrl, activeHigh);
            && PrescaleField(r) == PrescaleField(ctrl)
            && (Has(r, CNT_EN) <==> Has(ctrl, CNT_EN))
            && (Has(r, PRT_OE) <==> Has(ctrl, PRT_OE))
            && (Has(r, PLS_POL) <==> !activeHigh)
            && r & !CONFIGURED_MSK == ctrl & !CONFIGURED_MSK
  {
    assert Low7(WithPolarity(ctrl, activeHigh)) == Low7(ctrl);
  }

  /** The polarity bit is clear exactly for active high; no other field is disturbed. */
  lemma PolarityWritten(ctrl: bv32, activeHigh: bool)
    ensures Fields(WithPolarity(ctrl, activeHigh)) == Fields(ctrl).(activeLow := !activeHigh)
  {
    PolarityBits(ctrl, activeHigh);
  }

  /* ----- the configuration mask ----- */

  /** A mask after its nanosecond and percent requests have been turned into tick requests. */
  function NormalMask(mask: bv32): bv32 {
    var m1 := if Has(mask, PERIOD_NS) then Exchange(mask, PERIOD_NS, PERIOD_TICKS) else mask;
    var m2 := if Has(m1, DUTY_NS) then Exchange(m1, DUTY_NS, DUTY_TICKS) else m1;
    if Has(m2, DUTY_PERCENT) then Exchange(m2, DUTY_PERCENT, DUTY_TICKS) else m2
  }

  lemma NormalMaskMeaning(mask: bv32)
    ensures var m := NormalMask(mask);
            && !Has(m, DUTY_NS) && !Has(m, DUTY_PERCENT) && !Has(m, PERIOD_NS)
            && (Has(m, PERIOD_TICKS) <==> Has(mask, PERIOD_TICKS) || Has(mask, PERIOD_NS))
            && (Has(m, DUTY_TICKS) <==> Has(mask, DUTY_TICKS) || Has(mask, DUTY_NS) || Has(mask, DUTY_PERCENT))
            && (Has(m, START) <==> Has(mask, START))
            && (Has(m, STOP) <==> Has(mask, STOP))
            && (Has(m, POLARITY) <==> Has(mask, POLARITY))
    ensures NormalMask(mask) & !NORMALISED_MSK == mask & !NORMALISED_MSK
  {
  }
}
