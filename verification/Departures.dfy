/** Concrete calls, each accepted with a return value of 0, after which the registers no longer
    stand for what was asked (driver/_pwm.c:143-182, 242-246), or the settings are not what was
    asked. They show that no part of the condition `Refinement.Keeps` can be dropped. The last two
    are suspends and resumes that do not give back what they should (driver/_pwm.c:312-360). */
module Departures {
  import opened Bits
  import opened Words
  import opened Ticks
  import opened Encoding
  import opened Channel
  import opened Refinement
  import opened Runs
  import opened Accessors
  import opened Core
  import opened Device

  /** A channel at 27 MHz with an unscaled period of 1000 ticks and the given duty. */
  function Sample(duty: Word): Chan {
    Fresh(Regs(0, DutyCount(1000, duty), 999, 0, 0)).(tickHz := CLK_27MHZ, period := 1000, duty := duty)
  }

  lemma SampleRefines(duty: Word)
    requires duty <= 1000
    ensures Refines(Sample(duty))
  {
  }

  /** A period in ticks, alone. */
  const PERIOD_ONLY := EMPTY_REQUEST.(mask := PERIOD_TICKS)

  /** A period and a duty in ticks. */
  const BOTH := EMPTY_REQUEST.(mask := PERIOD_TICKS | DUTY_TICKS)

  lemma PeriodCall(s: Chan, period: Word)
    requires s.duty <= period
    ensures Config(s, PERIOD_ONLY.(periodTicks := period)) == (ConfigPeriod(s, period), 0)
  {
  }

  lemma CombinedCall(s: Chan, period: Word, duty: Word)
    requires duty <= period
    ensures Config(s, BOTH.(periodTicks := period, dutyTicks := duty)) == (ConfigDuty(ConfigPeriod(s, period), duty), 0)
  {
  }

  /** A period above 2^24 ticks is refused inside the driver, but the error is dropped and the duty
      that came with it is stored above the period that stays in force. */
  lemma RefusedPeriodStoresDuty()
    ensures var (z, ret) := Config(Sample(500), BOTH.(periodTicks := 0x100_0001, dutyTicks := 0x100_0001));
            Refines(Sample(500)) && ret == 0 && z.period == 1000 && z.duty == 0x100_0001 && !Ordered(z) && !Refines(z)
  {
    SampleRefines(500);
    CombinedCall(Sample(500), 0x100_0001, 0x100_0001);
  }

  /** On a channel just opened, whose duty is zero, setting a period of 10 ms alone changes the
      prescale and so sets the full-duty bit, where the encoding of that duty is zero. */
  lemma FirstPeriodFillsZeroDuty(regs: Regs)
    requires PrescaleField(regs.ctrl) == 0
    ensures var c := EMPTY_REQUEST.(mask := PERIOD_NS, periodNs := 10_000_000);
            var (z, ret) := Config(Granted(Fresh(regs), CLK_27MHZ), c);
            ret == 0 && z.period == 270_000 && z.duty == 0
            && z.regs.duty == 0x3_FFFF && z.regs.duty >= FULL_DUTY && DutyCount(270_000, 0) == 0
  {
    hide Fields, PrescaleField, WithPrescale;
    var s := Granted(Fresh(regs), CLK_27MHZ);
    var c := EMPTY_REQUEST.(mask := PERIOD_NS, periodNs := 10_000_000);
    At27MHz(10_000_000);
    NanosecondCall(s, c);
    NewPrescaleDuty(s, 270_000);
    PeriodStep(s, 270_000);
  }

  lemma NanosecondCall(s: Chan, c: Request)
    requires c.mask == PERIOD_NS && s.duty <= NsToTicks(s.tickHz, c.periodNs)
    ensures Config(s, c) == (ConfigPeriod(s, NsToTicks(s.tickHz, c.periodNs)), 0)
  {
    hide ConfigPeriod, NsToTicks;
    ChecksWhatItWrites(s, c);
  }

  /** A new prescale leaves the duty register one too small for a duty of at least one prescaled
      step. */
  lemma NewPrescaleShortensDuty()
    ensures var (z, ret) := Config(Sample(500), PERIOD_ONLY.(periodTicks := 0x4_0000));
            Refines(Sample(500)) && ret == 0 && z.period == 0x4_0000 && z.duty == 500
            && z.regs.duty == 249 && DutyCount(0x4_0000, 500) == 250 && !Refines(z)
  {
    SampleRefines(500);
    assert Low7(0) == 0;
    PeriodCall(Sample(500), 0x4_0000);
  }

  /** A period equal to the stored duty is not written to the period register. */
  lemma FullDutyKeepsOldPeriod()
    ensures var (z, ret) := Config(Sample(500), PERIOD_ONLY.(periodTicks := 500));
            Refines(Sample(500)) && ret == 0 && z.period == 500 && z.duty == 500
            && z.regs.perval == 999 && PeriodCount(500) == 499 && !Refines(z)
  {
  }

  /** Nor is it when a new duty comes with it: halving both the period and the duty leaves the waveform
      at its old length, twice what was asked. */
  lemma HalvedPeriodKeepsOldLength()
    ensures var (z, ret) := Config(Sample(500), BOTH.(periodTicks := 500, dutyTicks := 250));
            Refines(Sample(500)) && ret == 0 && z.period == 500 && z.duty == 250
            && z.regs.duty == 250 && Length(z.regs) == 1000 && ProgrammedLength(500) == 500 && !Refines(z)
  {
    SampleRefines(500);
    CombinedCall(Sample(500), 500, 250);
    assert Low7(0) == 0;
  }

  /** A longer period does not take back the full-duty bit of a duty that filled the old one. */
  lemma LongerPeriodStaysFull()
    ensures var (z, ret) := Config(Sample(1000), PERIOD_ONLY.(periodTicks := 2000));
            Refines(Sample(1000)) && ret == 0 && z.period == 2000 && z.duty == 1000
            && z.regs.duty == FULL_DUTY && DutyCount(2000, 1000) == 1000 && !Refines(z)
  {
    SampleRefines(1000);
    assert Low7(0) == 0;
    PeriodCall(Sample(1000), 2000);
  }

  /** 256 percent of the longest period is accepted, and stores a duty of zero. */
  lemma WrappedPercentStoresZero(s: Chan)
    requires s.period == PERIOD_MAX
    ensures var (z, ret) := SetDutyPercent(s, 256);
            ret == 0 && z.period == s.period && z.duty == 0
  {
    hide SetDutyPercent;
    AnyPercent(s, 256);
  }

  /** A controller of one channel. */
  function Controller(c: Chan, clkSrc: Word): Dev {
    Dev(0, "pwm0", 0, [CLK_27MHZ], [c], 0, clkSrc, 0)
  }

  /** A channel that is released between a suspend and the resume runs again afterwards, with nobody
      holding it. */
  lemma ResumeRestartsReleased()
    ensures var c := Run(Sample(500), true).(requested := true);
            var z := Restore(Controller(Released(c), 15), Save(Controller(c, 15), EMPTY_AREA)).chans[0];
            Silent(Released(c)) && !z.requested && Fields(z.regs.ctrl).enabled && !Silent(z)
  {
    var c := Run(Sample(500), true).(requested := true);
    ReleasedIsSilent(c);
    RunWritten(Sample(500).regs.ctrl, true);
  }

  /** A second controller without channels that suspends in between is enough to resume the first
      one with the wrong clock source. */
  lemma SharedAreaMixesClockSources()
    ensures var d := Controller(Sample(500), 15);
            var other := Dev(1, "pwm1", 0, [], [], 0, 1, 0);
            var z := Restore(d, Save(other, Save(d, EMPTY_AREA)));
            z.chans == d.chans && z.clkSrc == 1 && d.clkSrc == 15
  {
    var d := Controller(Sample(500), 15);
    var z := Restore(d, Save(Dev(1, "pwm1", 0, [], [], 0, 1, 0), Save(d, EMPTY_AREA)));
    assert z.chans[0] == d.chans[0];
  }
}
