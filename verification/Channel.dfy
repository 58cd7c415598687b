/** A PWM channel as a value: its registers and its software state, and what one configuration
    call makes of it (driver/_pwm.c:76-259, driver/pwm_core.c:244-421). The class that updates a
    channel in place is proved against these functions. */
module Channel {
  import opened Bits
  import opened Kernel
  import opened Words
  import opened Ticks
  import opened Encoding

  /** The registers of a channel that the driver writes or saves (driver/_pwm.h:181-193). */
  datatype Regs = Regs(ctrl: bv32, duty: Word, perval: Word, hold: Word, pulses: Word)

  /** `struct pwm_channel` (driver/pwm_core.h:98-119) together with its registers. `requested` and
      `stopPending` are FLAG_REQUESTED and FLAG_STOP; `callbacks` counts the calls made to the
      installed callback. */
  datatype Chan = Chan(
    regs: Regs,
    requested: bool,
    stopPending: bool,
    tickHz: Word,
    callback: bool,
    callbacks: nat,
    completed: bool,
    handler: Option<nat>,
    handlerData: Option<nat>,
    activeHigh: Int32,
    period: Word,
    duty: Word)

  /** A channel as registered: zeroed, over registers of any content. */
  function Fresh(regs: Regs): Chan {
    Chan(regs, false, false, 0, false, 0, false, None, None, 0, 0, 0)
  }

  /** `struct pwm_channel_config` (driver/pwm_core.h:56-67), without its unused handler. */
  datatype Request = Request(
    mask: bv32,
    dutyTicks: Word,
    periodTicks: Word,
    polarity: Int32,
    dutyNs: Word,
    periodNs: Word,
    dutyPercent: Int32)

  const EMPTY_REQUEST := Request(0, 0, 0, 0, 0, 0, 0)

  /* ----- the driver's steps (driver/_pwm.c:76-208) ----- */

  function Run(s: Chan, on: bool): Chan {
    s.(regs := s.regs.(ctrl := WithRun(s.regs.ctrl, on)))
  }

  function ConfigDuty(s: Chan, duty: Word): Chan {
    var count := duty / (PrescaleField(s.regs.ctrl) + 1);
    s.(duty := duty,
       regs := s.regs.(duty := if duty == s.period then FULL_DUTY else Low18(count)))
  }

  function ConfigPeriod(s: Chan, period: Word): Chan {
    var k := Prescale(period);
    if k > PRESCALE_MAX then s
    else
      var r := s.regs;
      var r' := if PrescaleField(r.ctrl) == k then r
                else r.(ctrl := WithPrescale(r.ctrl, k), duty := Low18(Wrap32(s.duty / (k + 1) - 1)));
      s.(period := period,
         regs := if period == s.duty then r'.(duty := FULL_DUTY)
                 else r'.(perval := Low18(PeriodCount(period))))
  }

  function ConfigPolarity(s: Chan, polarity: Int32): Chan {
    s.(activeHigh := polarity,
       regs := s.regs.(ctrl := WithPolarity(s.regs.ctrl, polarity != 0)))
  }

  /** `__pwm_config_nosleep`: the steps a mask asks for, in the driver's order. The error of a
      rejected period is dropped (driver/_pwm.c:242-243). */
  function DriverConfig(s: Chan, c: Request): (r: (Chan, int)) {
    if !Has(c.mask, START | STOP | PERIOD_TICKS | DUTY_TICKS | POLARITY) then (s, -EINVAL)
    else
      var s1 := if Has(c.mask, START) then Run(s, true) else s;
      var s2 := if Has(c.mask, STOP) then Run(s1, false) else s1;
      var s3 := if Has(c.mask, PERIOD_TICKS) then ConfigPeriod(s2, c.periodTicks) else s2;
      var s4 := if Has(c.mask, DUTY_TICKS) then ConfigDuty(s3, c.dutyTicks) else s3;
      var s5 := if Has(c.mask, POLARITY) then ConfigPolarity(s4, c.polarity) else s4;
      (s5, 0)
  }

  /* ----- normalisation and validation (driver/pwm_core.c:244-330) ----- */

  function NormaliseNs(s: Chan, c: Request): Request {
    var c1 := if !Has(c.mask, PERIOD_NS) then c
              else c.(periodTicks := NsToTicks(s.tickHz, c.periodNs),
                      mask := Exchange(c.mask, PERIOD_NS, PERIOD_TICKS));
    if !Has(c1.mask, DUTY_NS) then c1
    else c1.(dutyTicks := NsToTicks(s.tickHz, c1.dutyNs),
             mask := Exchange(c1.mask, DUTY_NS, DUTY_TICKS))
  }

  /** `percent` of `whole`, in 32-bit arithmetic. */
  function PercentOf(whole: Word, percent: Int32): Word {
    Wrap32(whole * Wrap32(percent)) / 100
  }

  function NormalisePercent(s: Chan, c: Request): Request {
    if !Has(c.mask, DUTY_PERCENT) then c
    else
      var whole := if Has(c.mask, PERIOD_TICKS) then c.periodTicks else s.period;
      c.(dutyTicks := PercentOf(whole, c.dutyPercent),
         mask := Exchange(c.mask, DUTY_PERCENT, DUTY_TICKS))
  }

  function Normalise(s: Chan, c: Request): Request {
    NormalisePercent(s, NormaliseNs(s, c))
  }

  /** The check `pwm_config` makes on a normalised request. */
  predicate Admissible(s: Chan, n: Request) {
    var p := Has(n.mask, PERIOD_TICKS);
    var d := Has(n.mask, DUTY_TICKS);
    if p && d then n.dutyTicks <= n.periodTicks
    else if p then s.duty <= n.periodTicks
    else if d then n.dutyTicks <= s.period
    else true
  }

  /** `pwm_config_nosleep`, which is also what the driver's config hook calls. */
  function ConfigNosleep(s: Chan, c: Request): (Chan, int) {
    DriverConfig(s, Normalise(s, c))
  }

  /** `pwm_config`: normalise, check, and hand over to the driver's hook. */
  function Config(s: Chan, c: Request): (Chan, int) {
    var n := Normalise(s, c);
    if Admissible(s, n) then ConfigNosleep(s, n) else (s, -EINVAL)
  }

  /** What a request means after normalisation: nanoseconds override ticks, percent overrides
      both, a percentage is taken of the new period when one is given, and nothing is left to
      normalise. */
  lemma NormaliseMeaning(s: Chan, c: Request)
    ensures var n := Normalise(s, c);
            && n.mask == NormalMask(c.mask)
            && n.periodTicks == (if Has(c.mask, PERIOD_NS) then NsToTicks(s.tickHz, c.periodNs) else c.periodTicks)
            && n.dutyTicks == (if Has(c.mask, DUTY_PERCENT) then
                                 PercentOf(if Has(n.mask, PERIOD_TICKS) then n.periodTicks else s.period, c.dutyPercent)
                               else if Has(c.mask, DUTY_NS) then NsToTicks(s.tickHz, c.dutyNs)
                               else c.dutyTicks)
            && n.polarity == c.polarity
  {
  }

  /** What `pwm_config` checked is what the driver writes: the second normalisation, inside the
      driver's hook, changes nothing. */
  lemma ChecksWhatItWrites(s: Chan, c: Request)
    ensures var n := Normalise(s, c);
            && Normalise(s, n) == n
            && Config(s, c) == if Admissible(s, n) then DriverConfig(s, n) else (s, -EINVAL)
  {
  }

  /** A duty of at most the period, both in nanoseconds, is always admitted: conversion to ticks
      keeps the order. */
  lemma OrderedNsIsAdmissible(s: Chan, c: Request)
    requires s.tickHz <= NS_PER_S
    requires Has(c.mask, PERIOD_NS) && Has(c.mask, DUTY_NS) && !Has(c.mask, DUTY_PERCENT)
    requires c.dutyNs <= c.periodNs
    ensures Admissible(s, Normalise(s, c)) && Config(s, c).1 == 0
  {
    NormaliseMeaning(s, c);
    NormalMaskMeaning(c.mask);
    ChecksWhatItWrites(s, c);
    NsToTicksMono(s.tickHz, c.dutyNs, c.periodNs);
  }

  /* ----- the accessors (driver/pwm_core.c:333-421) ----- */

  function SetPeriodNs(s: Chan, ns: Word): (Chan, int) {
    Config(s, EMPTY_REQUEST.(mask := PERIOD_TICKS, periodTicks := NsToTicks(s.tickHz, ns)))
  }

  function GetPeriodNs(s: Chan): Word {
    TicksToNs(s.tickHz, s.period)
  }

  function SetDutyNs(s: Chan, ns: Word): (Chan, int) {
    Config(s, EMPTY_REQUEST.(mask := DUTY_TICKS, dutyTicks := NsToTicks(s.tickHz, ns)))
  }

  function GetDutyNs(s: Chan): Word {
    TicksToNs(s.tickHz, s.duty)
  }

  function SetDutyPercent(s: Chan, percent: Int32): (Chan, int) {
    Config(s, EMPTY_REQUEST.(mask := DUTY_PERCENT, dutyPercent := percent))
  }

  /** The product is a 32-bit one; -1 stands for a channel without a period. */
  function GetDutyPercent(s: Chan): Int32 {
    if GetPeriodNs(s) == 0 then -1 else Signed32(Wrap32(GetDutyNs(s) * 100) / GetPeriodNs(s))
  }

  function SetPolarity(s: Chan, activeHigh: Int32): (Chan, int) {
    Config(s, EMPTY_REQUEST.(mask := POLARITY, polarity := if activeHigh != 0 then 1 else 0))
  }

  function GetPolarity(s: Chan): Int32 {
    s.activeHigh
  }

  function StartChannel(s: Chan): (Chan, int) {
    Config(s, EMPTY_REQUEST.(mask := START))
  }

  function StopChannel(s: Chan): (Chan, int) {
    Config(s, EMPTY_REQUEST.(mask := STOP))
  }
}
