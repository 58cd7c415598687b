/** When the registers of a channel stand for its stored period and duty, exactly which
    configuration calls leave them so, and how long the waveform is after a call
    (driver/_pwm.c:113-182, 221-259). */
module Refinement {
  import opened Bits
  import opened Kernel
  import opened Words
  import opened Ticks
  import opened Encoding
  import opened Channel

  /** The registers are the pure encoding of a period and a duty. */
  predicate Encodes(r: Regs, period: Word, duty: Word) {
    && PrescaleField(r.ctrl) == Prescale(period)
    && r.perval == PeriodCount(period)
    && r.duty == DutyCount(period, duty)
  }

  /** The registers stand for the stored period and duty, which are ones the hardware can have. */
  predicate Refines(s: Chan) {
    1 <= s.period <= PERIOD_MAX && s.duty <= s.period && Encodes(s.regs, s.period, s.duty)
  }

  /** Updating the period alone to `period`, at least the stored duty: when the period becomes
      the stored duty the period register is not written; otherwise the duty register is written
      wrong if the prescale changes (`NewPrescaleDuty`), and keeps a full-duty mark if it does
      not. */
  predicate PeriodKeeps(s: Chan, period: Word) {
    if period == s.duty then PeriodCount(s.period) == PeriodCount(period)
    else Prescale(s.period) == Prescale(period) && s.duty != s.period
  }

  /** What a caller can check, on the stored period and duty, before an admissible call. */
  predicate Keeps(s: Chan, n: Request) {
    var p := Has(n.mask, PERIOD_TICKS);
    var d := Has(n.mask, DUTY_TICKS);
    if p && 1 <= n.periodTicks <= PERIOD_MAX then
      if d then n.periodTicks != s.duty || PeriodCount(s.period) == PeriodCount(n.periodTicks)
      else PeriodKeeps(s, n.periodTicks)
    else
      d ==> n.dutyTicks <= s.period
  }

  lemma DutyStep(s: Chan, duty: Word)
    requires 1 <= s.period <= PERIOD_MAX
    requires PrescaleField(s.regs.ctrl) == Prescale(s.period)
    ensures Refines(ConfigDuty(s, duty)) <==> duty <= s.period && s.regs.perval == PeriodCount(s.period)
  {
    if duty < s.period {
      EncodingFits(s.period, duty);
    }
  }

  /** A period update from any registers at all. */
  lemma PeriodStep(s: Chan, period: Word)
    requires 1 <= period <= PERIOD_MAX
    ensures var z := ConfigPeriod(s, period);
            && z.period == period && z.duty == s.duty
            && PrescaleField(z.regs.ctrl) == Prescale(period)
            && (z.regs.perval == PeriodCount(period) <==> period != s.duty || s.regs.perval == PeriodCount(period))
  {
    AcceptedPeriods(period);
    EncodingFits(period, 0);
    PrescaleBits(s.regs.ctrl, Prescale(period));
  }

  lemma OneLess(duty: nat, step: nat)
    requires 1 <= step && duty / step < FULL_DUTY
    ensures Low18(Wrap32(duty / step - 1)) == if duty < step then 0x3_FFFF else duty / step - 1
    ensures duty < step <==> duty / step == 0
  {
    if duty < step {
      DivUnique(duty, step, 0);
    } else {
      DivAtLeast(duty, step, 1);
    }
  }

  /** What a period update that changes the prescale leaves in the duty register: one less than the
      duty count or, when the duty is less than one prescaled step, minus one cut to 18 bits, which
      has the full-duty bit set. */
  lemma NewPrescaleDuty(s: Chan, period: Word)
    requires 1 <= period <= PERIOD_MAX && s.duty < period
    requires PrescaleField(s.regs.ctrl) != Prescale(period)
    ensures var written := ConfigPeriod(s, period).regs.duty;
            && written == (if s.duty <= Prescale(period) then 0x3_FFFF else DutyCount(period, s.duty) - 1)
            && (written >= FULL_DUTY <==> s.duty <= Prescale(period))
  {
    hide WithPrescale, PrescaleField, Prescale, Low18, Wrap32;
    AcceptedPeriods(period);
    EncodingFits(period, s.duty);
    OneLess(s.duty, Prescale(period) + 1);
  }

  lemma PeriodOnly(s: Chan, period: Word)
    requires 1 <= period <= PERIOD_MAX && s.duty <= period
    ensures Refines(ConfigPeriod(s, period)) <==>
            if period == s.duty then s.regs.perval == PeriodCount(period)
            else PrescaleField(s.regs.ctrl) == Prescale(period) && s.regs.duty == DutyCount(period, s.duty)
  {
    PeriodStep(s, period);
    if s.duty < period {
      EncodingFits(period, s.duty);
    }
  }

  /** A combined update makes the registers right from any state, power-on contents included,
      unless the new period equals the stored duty and the period register held another count. */
  lemma CombinedUpdate(s: Chan, period: Word, duty: Word)
    requires 1 <= period <= PERIOD_MAX && duty <= period
    ensures Refines(ConfigDuty(ConfigPeriod(s, period), duty))
            <==> period != s.duty || s.regs.perval == PeriodCount(period)
  {
    PeriodStep(s, period);
    DutyStep(ConfigPeriod(s, period), duty);
  }

  /** The steps that write only the control register's other bits. */
  lemma ControlStep(s: Chan, on: bool, polarity: Int32)
    ensures Refines(Run(s, on)) <==> Refines(s)
    ensures Refines(ConfigPolarity(s, polarity)) <==> Refines(s)
  {
    RunBits(s.regs.ctrl, on);
    PolarityBits(s.regs.ctrl, polarity != 0);
  }

  /** The part of a call that sets the period and the duty. */
  function Timing(s: Chan, n: Request): Chan {
    var s3 := if Has(n.mask, PERIOD_TICKS) then ConfigPeriod(s, n.periodTicks) else s;
    if Has(n.mask, DUTY_TICKS) then ConfigDuty(s3, n.dutyTicks) else s3
  }

  /** Whether an admissible request leaves the registers right, from any registers and settings at
      all: a combined update does unless its period equals the stored duty and the period register
      held another count; a period alone does only if the registers that it leaves alone fit it; a
      duty alone does only under a right prescale and period register; nothing else makes a
      difference. */
  predicate RightAfter(s: Chan, n: Request) {
    var p := Has(n.mask, PERIOD_TICKS) && 1 <= n.periodTicks <= PERIOD_MAX;
    var d := Has(n.mask, DUTY_TICKS);
    if p && d then n.periodTicks != s.duty || s.regs.perval == PeriodCount(n.periodTicks)
    else if p then
      if n.periodTicks == s.duty then s.regs.perval == PeriodCount(n.periodTicks)
      else PrescaleField(s.regs.ctrl) == Prescale(n.periodTicks) && s.regs.duty == DutyCount(n.periodTicks, s.duty)
    else if d then
      && 1 <= s.period <= PERIOD_MAX && n.dutyTicks <= s.period
      && PrescaleField(s.regs.ctrl) == Prescale(s.period) && s.regs.perval == PeriodCount(s.period)
    else Refines(s)
  }

  lemma TimingRight(s: Chan, n: Request)
    requires Admissible(s, n)
    ensures Refines(Timing(s, n)) <==> RightAfter(s, n)
  {
    AcceptedPeriods(n.periodTicks);
    if Has(n.mask, PERIOD_TICKS) && 1 <= n.periodTicks <= PERIOD_MAX {
      if Has(n.mask, DUTY_TICKS) {
        CombinedUpdate(s, n.periodTicks, n.dutyTicks);
      } else {
        PeriodOnly(s, n.periodTicks);
      }
    } else if Has(n.mask, DUTY_TICKS) {
      if 1 <= s.period <= PERIOD_MAX && PrescaleField(s.regs.ctrl) == Prescale(s.period) {
        DutyStep(s, n.dutyTicks);
      }
    }
  }

  /** From right registers, that is what `Keeps` says. */
  lemma RightAfterRight(s: Chan, n: Request)
    requires Refines(s) && Admissible(s, n)
    ensures RightAfter(s, n) <==> Keeps(s, n)
  {
    hide PrescaleField;
    if Has(n.mask, PERIOD_TICKS) && 1 <= n.periodTicks <= PERIOD_MAX && s.duty < n.periodTicks {
      EncodingFits(n.periodTicks, s.duty);
    }
  }

  /** The run bits requested by a mask; stop wins. */
  function RunPart(s: Chan, mask: bv32): Chan {
    if Has(mask, STOP) then Run(s, false) else if Has(mask, START) then Run(s, true) else s
  }

  lemma RunKeepsTiming(s: Chan, on: bool)
    ensures var z := Run(s, on);
            && z.period == s.period && z.duty == s.duty && z.activeHigh == s.activeHigh
            && z.regs == s.regs.(ctrl := z.regs.ctrl)
  {
    hide WithRun;
  }

  /** Stop after start is stop. */
  lemma StopWins(ctrl: bv32)
    ensures WithRun(WithRun(ctrl, true), false) == WithRun(ctrl, false)
  {
  }

  lemma NothingAsked(mask: bv32)
    ensures Has(mask, START | STOP | PERIOD_TICKS | DUTY_TICKS | POLARITY)
            <==> Has(mask, START) || Has(mask, STOP) || Has(mask, PERIOD_TICKS) || Has(mask, DUTY_TICKS)
                 || Has(mask, POLARITY)
  {
  }

  /** A driver call is its run part, then its timing part, then its polarity part. */
  function Parts(s: Chan, n: Request): Chan {
    var t := Timing(RunPart(s, n.mask), n);
    if Has(n.mask, POLARITY) then ConfigPolarity(t, n.polarity) else t
  }

  lemma DriverParts(s: Chan, n: Request)
    ensures DriverConfig(s, n).0 == Parts(s, n)
    ensures DriverConfig(s, n).1 == 0 || (DriverConfig(s, n).1 == -EINVAL && Parts(s, n) == s)
  {
    hide Has, WithRun, ConfigPeriod, ConfigDuty, ConfigPolarity;
    NothingAsked(n.mask);
    StopWins(s.regs.ctrl);
  }

  /** The answer of `pwm_config`, by what is asked of it: a call that touches the period or the duty is
      refused exactly when the duty then in force would exceed the period then in force, and any other
      call exactly when it asks for nothing. A refused call changes nothing. */
  lemma ConfigAnswer(s: Chan, c: Request)
    ensures var n := Normalise(s, c);
            var p, d := Has(n.mask, PERIOD_TICKS), Has(n.mask, DUTY_TICKS);
            var period := if p then n.periodTicks else s.period;
            var duty := if d then n.dutyTicks else s.duty;
            var refused := if p || d then duty > period
                           else !Has(n.mask, START) && !Has(n.mask, STOP) && !Has(n.mask, POLARITY);
            && Config(s, c).1 == (if refused then -EINVAL else 0)
            && (refused ==> Config(s, c).0 == s)
  {
    hide Normalise, Has, ConfigPeriod, ConfigDuty, ConfigPolarity, Run;
    ChecksWhatItWrites(s, c);
    NothingAsked(Normalise(s, c).mask);
  }

  lemma RunPartRight(s: Chan, n: Request)
    ensures RightAfter(RunPart(s, n.mask), n) <==> RightAfter(s, n)
    ensures Admissible(RunPart(s, n.mask), n) <==> Admissible(s, n)
  {
    hide RightAfter, Refines, Run, Has;
    RunKeepsCounts(s, false, n);
    RunKeepsCounts(s, true, n);
  }

  lemma RunKeepsCounts(s: Chan, on: bool, n: Request)
    ensures RightAfter(Run(s, on), n) <==> RightAfter(s, n)
    ensures Admissible(Run(s, on), n) <==> Admissible(s, n)
  {
    hide Has, WithRun, PrescaleField, Prescale, PeriodCount, DutyCount, Refines;
    ControlStep(s, on, 0);
    RunBits(s.regs.ctrl, on);
  }

  lemma PartsRight(s: Chan, n: Request)
    requires Admissible(s, n)
    ensures Refines(Parts(s, n)) <==> RightAfter(s, n)
  {
    hide RightAfter, Refines, Timing, RunPart, ConfigPolarity;
    var s1 := RunPart(s, n.mask);
    RunPartRight(s, n);
    TimingRight(s1, n);
    ControlStep(Timing(s1, n), true, n.polarity);
  }

  /** Every call on every channel, a channel just opened included: a refused one changes nothing, and
      an admitted one leaves the registers equal to the encoding of the stored period and duty
      exactly when `RightAfter` holds. */
  lemma ConfigRefines(s: Chan, c: Request)
    ensures var n := Normalise(s, c);
            Refines(Config(s, c).0) <==> if Admissible(s, n) then RightAfter(s, n) else Refines(s)
  {
    hide RightAfter, Refines, Parts, DriverConfig, Normalise;
    ChecksWhatItWrites(s, c);
    var n := Normalise(s, c);
    if Admissible(s, n) {
      DriverParts(s, n);
      PartsRight(s, n);
    }
  }

  /** A call on a channel whose registers are right: an admitted one keeps them so exactly when
      `Keeps`, which speaks of the stored settings only, holds. */
  lemma ConfigKeepsRefinement(s: Chan, c: Request)
    requires Refines(s)
    ensures var n := Normalise(s, c);
            Refines(Config(s, c).0) <==> !Admissible(s, n) || Keeps(s, n)
  {
    hide RightAfter, Keeps, Refines, Config, Normalise, Admissible;
    ConfigRefines(s, c);
    if Admissible(s, Normalise(s, c)) {
      RightAfterRight(s, Normalise(s, c));
    }
  }

  /* ----- the waveform after a call ----- */

  lemma RunPartTiming(s: Chan, mask: bv32)
    ensures var z := RunPart(s, mask);
            z.period == s.period && z.duty == s.duty && z.regs == s.regs.(ctrl := z.regs.ctrl)
  {
    hide Has, Run;
    RunKeepsTiming(s, true);
    RunKeepsTiming(s, false);
  }

  lemma PolarityKeepsCounts(s: Chan, polarity: Int32)
    ensures var r := ConfigPolarity(s, polarity).regs;
            PrescaleField(r.ctrl) == PrescaleField(s.regs.ctrl) && r == s.regs.(ctrl := r.ctrl)
  {
    hide WithPolarity, PrescaleField;
    PolarityBits(s.regs.ctrl, polarity != 0);
  }

  lemma TimingPeriod(s: Chan, n: Request)
    requires Has(n.mask, PERIOD_TICKS) && 1 <= n.periodTicks <= PERIOD_MAX
    ensures var z := Timing(s, n);
            && PrescaleField(z.regs.ctrl) == Prescale(n.periodTicks)
            && (z.regs.perval == PeriodCount(n.periodTicks)
                <==> n.periodTicks != s.duty || s.regs.perval == PeriodCount(n.periodTicks))
  {
    hide Has, PrescaleField, Prescale, PeriodCount, ConfigPeriod, Low18;
    PeriodStep(s, n.periodTicks);
  }

  /** The prescale and the period register after an admitted call with an accepted period. */
  lemma PartsPeriod(s: Chan, n: Request)
    requires Has(n.mask, PERIOD_TICKS) && 1 <= n.periodTicks <= PERIOD_MAX
    ensures var z := Parts(s, n);
            && PrescaleField(z.regs.ctrl) == Prescale(n.periodTicks)
            && (z.regs.perval == PeriodCount(n.periodTicks)
                <==> n.periodTicks != s.duty || s.regs.perval == PeriodCount(n.periodTicks))
  {
    hide Has, RunPart, Timing, ConfigPolarity, PrescaleField, Prescale, PeriodCount;
    var s1 := RunPart(s, n.mask);
    RunPartTiming(s, n.mask);
    TimingPeriod(s1, n);
    PolarityKeepsCounts(Timing(s1, n), n.polarity);
  }

  /** The number of clock ticks of one period of the waveform that registers stand for. */
  function Length(r: Regs): nat {
    (PrescaleField(r.ctrl) + 1) * (r.perval + 1)
  }

  /** Of the multiples of a step, only one is within a step below a given time. */
  lemma OneMultiple(step: nat, a: nat, b: nat, unit: nat, x: nat)
    requires a != b && 1 <= step && 1 <= unit
    requires step * b * unit <= x < (step * b + step) * unit
    ensures !(step * a * unit <= x < (step * a + step) * unit)
  {
    if a < b {
      MulMono(a + 1, b, step);
      assert (a + 1) * step == step * a + step;
      MulMono(step * a + step, step * b, unit);
    } else {
      MulMono(b + 1, a, step);
      assert (b + 1) * step == step * b + step;
      MulMono(step * b + step, step * a, unit);
    }
  }

  /** After an admitted call with an accepted period in nanoseconds, the programmed period is at most
      that time and short of it by less than one prescaled step exactly when the new period is not
      the duty stored before the call, or the period register held the right count already. */
  lemma CallAccuracy(s: Chan, c: Request)
    requires s.tickHz <= NS_PER_S
    requires Has(c.mask, PERIOD_NS) && Admissible(s, Normalise(s, c))
    requires 1 <= NsToTicks(s.tickHz, c.periodNs) <= PERIOD_MAX
    ensures var period := NsToTicks(s.tickHz, c.periodNs);
            var r := Config(s, c).0.regs;
            Length(r) * NS_PER_S <= c.periodNs * s.tickHz < (Length(r) + PrescaleField(r.ctrl) + 1) * NS_PER_S
            <==> period != s.duty || s.regs.perval == PeriodCount(period)
  {
    hide Parts, DriverConfig, NsToTicks, Has, PrescaleField, Prescale, Normalise, NormalMask;
    var n := Normalise(s, c);
    var period := NsToTicks(s.tickHz, c.periodNs);
    NormaliseMeaning(s, c);
    NormalMaskMeaning(c.mask);
    ChecksWhatItWrites(s, c);
    DriverParts(s, n);
    PartsPeriod(s, n);
    AccurateCount(s.tickHz, c.periodNs, Config(s, c).0.regs.perval);
  }

  /** When such a call asks for a duty in nanoseconds too, shorter than the period, the programmed
      pulse is at most that time and short of it by less than one prescaled step, without
      exception. */
  lemma PulseAccuracy(s: Chan, c: Request)
    requires s.tickHz <= NS_PER_S
    requires Has(c.mask, PERIOD_NS) && Has(c.mask, DUTY_NS) && !Has(c.mask, DUTY_PERCENT)
    requires NsToTicks(s.tickHz, c.dutyNs) < NsToTicks(s.tickHz, c.periodNs) <= PERIOD_MAX
    ensures var r := Config(s, c).0.regs;
            var step := PrescaleField(r.ctrl) + 1;
            r.duty < FULL_DUTY
            && step * r.duty * NS_PER_S <= c.dutyNs * s.tickHz < (step * r.duty + step) * NS_PER_S
  {
    hide Parts, DriverConfig, NsToTicks, Has, PrescaleField, Prescale, PeriodCount, Normalise, NormalMask, Config;
    var n := Normalise(s, c);
    var period, duty := NsToTicks(s.tickHz, c.periodNs), NsToTicks(s.tickHz, c.dutyNs);
    NormaliseMeaning(s, c);
    NormalMaskMeaning(c.mask);
    ChecksWhatItWrites(s, c);
    DriverParts(s, n);
    PartsPeriod(s, n);
    PartsDuty(s, n);
    EncodingFits(period, duty);
    PulseBounds(s.tickHz, c.dutyNs, Prescale(period) + 1);
  }

  lemma PulseBounds(tickHz: Word, ns: Word, step: nat)
    requires tickHz <= NS_PER_S && 1 <= step
    ensures var count := NsToTicks(tickHz, ns) / step;
            step * count * NS_PER_S <= ns * tickHz < (step * count + step) * NS_PER_S
  {
    hide NsToTicks;
    NsToTicksFloor(tickHz, ns);
    DivBracket(NsToTicks(tickHz, ns), step);
  }

  /** The duty register after an admitted call with an accepted period and a shorter duty. */
  lemma PartsDuty(s: Chan, n: Request)
    requires Has(n.mask, PERIOD_TICKS) && Has(n.mask, DUTY_TICKS)
    requires n.dutyTicks < n.periodTicks <= PERIOD_MAX
    ensures Parts(s, n).regs.duty == DutyCount(n.periodTicks, n.dutyTicks)
  {
    hide Has, WithRun, PrescaleField, Prescale, PeriodCount, ConfigPeriod, WithPolarity, Low18;
    var s1 := RunPart(s, n.mask);
    PeriodStep(s1, n.periodTicks);
    EncodingFits(n.periodTicks, n.dutyTicks);
  }

  /** Under the prescale of a requested time, exactly one period count is accurate. */
  lemma AccurateCount(tickHz: Word, ns: Word, perval: Word)
    requires tickHz <= NS_PER_S
    requires 1 <= NsToTicks(tickHz, ns) <= PERIOD_MAX
    ensures var period := NsToTicks(tickHz, ns);
            var step := Prescale(period) + 1;
            var length := step * (perval + 1);
            length * NS_PER_S <= ns * tickHz < (length + step) * NS_PER_S <==> perval == PeriodCount(period)
  {
    hide NsToTicks, Prescale;
    var period := NsToTicks(tickHz, ns);
    ProgrammedAccuracy(tickHz, ns);
    EncodingFits(period, 0);
    MulMono(0, ns, tickHz);
    if perval != PeriodCount(period) {
      OneMultiple(Prescale(period) + 1, perval + 1, PeriodCount(period) + 1, NS_PER_S, ns * tickHz);
    }
  }
}
