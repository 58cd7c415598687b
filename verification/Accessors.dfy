/** What a caller reads back after writing: the drift of a duty written back as it was read, and
    the round trip of a percentage (driver/pwm_core.c:333-385), at the driver's 27 MHz. */
module Accessors {
  import opened Bits
  import opened Kernel
  import opened Words
  import opened Ticks
  import opened Encoding
  import opened Channel
  import opened Refinement
  import opened Runs

  /** A granted channel of this driver, with its duty within its period. */
  predicate Clocked(s: Chan) {
    Ordered(s) && s.tickHz == CLK_27MHZ
  }

  /** Setting only the duty, to a value that passes the check, is a single duty step. */
  lemma SetDuty(s: Chan, c: Request)
    requires Normalise(s, c).mask == DUTY_TICKS && Normalise(s, c).dutyTicks <= s.period
    ensures Config(s, c) == (ConfigDuty(s, Normalise(s, c).dutyTicks), 0)
  {
  }

  /* ----- reading a duty and writing it back ----- */

  lemma BackBracket(q: nat, r: nat, ns: nat)
    requires r < 27
    requires ns * 27 <= (q * 27 + r) * 1000 < ns * 27 + 27
    ensures ns * 27 / 1000 == if r == 0 then q * 27 else q * 27 + r - 1
  {
  }

  /** Nanoseconds and back: a tick is lost unless 27 divides the tick count. */
  lemma BackToTicks(duty: Word)
    requires duty <= PERIOD_MAX
    ensures NsToTicks(CLK_27MHZ, TicksToNs(CLK_27MHZ, duty)) == if duty % 27 == 0 then duty else duty - 1
  {
    At27MHz(duty);
    var ns := TicksToNs(CLK_27MHZ, duty);
    At27MHz(ns);
    DivBracket(duty * 1000, 27);
    BackBracket(duty / 27, duty % 27, ns);
  }

  function WriteBack(s: Chan): (Chan, int) {
    SetDutyNs(s, GetDutyNs(s))
  }

  function WriteBacks(s: Chan, rounds: nat): Chan {
    if rounds == 0 then s else WriteBack(WriteBacks(s, rounds - 1)).0
  }

  lemma WriteBackStep(s: Chan)
    requires Clocked(s)
    ensures var (z, ret) := WriteBack(s);
            && ret == 0 && Clocked(z)
            && z.period == s.period
            && z.duty == (if s.duty % 27 == 0 then s.duty else s.duty - 1)
            && (Refines(s) ==> Refines(z))
  {
    BackToTicks(s.duty);
    var ticks := NsToTicks(s.tickHz, GetDutyNs(s));
    SetDuty(s, EMPTY_REQUEST.(mask := DUTY_TICKS, dutyTicks := ticks));
    if Refines(s) {
      DutyStep(s, ticks);
    }
  }

  /** Writing back what was read is always accepted, costs one tick a round until 27 divides the
      duty, and then changes nothing any more; the registers follow if they were right before. */
  lemma {:induction false} WriteBackDrift(s: Chan, rounds: nat)
    requires Clocked(s)
    ensures var z := WriteBacks(s, rounds);
            && Clocked(z) && WriteBack(z).1 == 0
            && z.period == s.period
            && z.duty == s.duty - (if rounds < s.duty % 27 then rounds else s.duty % 27)
            && (Refines(s) ==> Refines(z))
  {
    hide WriteBack, Clocked, Refines;
    if rounds > 0 {
      WriteBackDrift(s, rounds - 1);
      WriteBackStep(WriteBacks(s, rounds - 1));
    }
    WriteBackStep(WriteBacks(s, rounds));
  }

  /* ----- setting nanoseconds and reading them ----- */

  /** What is read back of `ns`. */
  function Reported(ns: Word): int {
    ns - CeilDiv(ns * CLK_27MHZ % NS_PER_S, CLK_27MHZ)
  }

  lemma ReportedClose(ns: Word)
    ensures TicksToNs(CLK_27MHZ, NsToTicks(CLK_27MHZ, ns)) == Reported(ns)
    ensures ns - 37 <= Reported(ns) <= ns
  {
    hide NsToTicks, TicksToNs;
    NsRoundTrip(CLK_27MHZ, ns);
    NsRoundTripAt27MHz(ns);
  }

  /** A period and a duty in nanoseconds, as the character device sends them, with or without a
      polarity, are read back short by exactly the rounded-up remainders of the two conversions, at
      most 37 ns each, whatever the channel held before. */
  lemma NsThroughChannel(s: Chan, c: Request)
    requires s.tickHz == CLK_27MHZ
    requires Has(c.mask, PERIOD_NS) && Has(c.mask, DUTY_NS) && !Has(c.mask, DUTY_PERCENT) && c.dutyNs <= c.periodNs
    requires 1 <= NsToTicks(CLK_27MHZ, c.periodNs) <= PERIOD_MAX
    ensures var (z, ret) := Config(s, c);
            && ret == 0 && Clocked(z)
            && GetPeriodNs(z) == Reported(c.periodNs) && GetDutyNs(z) == Reported(c.dutyNs)
            && c.periodNs - 37 <= GetPeriodNs(z) <= c.periodNs && c.dutyNs - 37 <= GetDutyNs(z) <= c.dutyNs
  {
    hide Fields, Parts, DriverConfig, NsToTicks, TicksToNs;
    var n := Normalise(s, c);
    OrderedNsIsAdmissible(s, c);
    ChecksWhatItWrites(s, c);
    NormaliseMeaning(s, c);
    NormalMaskMeaning(c.mask);
    NsToTicksMono(CLK_27MHZ, c.dutyNs, c.periodNs);
    DriverParts(s, n);
    PartsTiming(s, n);
    ConfigFrame(s, c);
    ReportedClose(c.periodNs);
    ReportedClose(c.dutyNs);
  }

  /** A period in nanoseconds is refused exactly when it is shorter than the stored duty. One of
      1 to 2^24 ticks is read back within 37 ns; any other is answered with success and ignored. */
  lemma SetPeriodThenGet(s: Chan, ns: Word)
    requires s.tickHz == CLK_27MHZ
    ensures var ticks := NsToTicks(CLK_27MHZ, ns);
            var (z, ret) := SetPeriodNs(s, ns);
            && (if s.duty <= ticks then ret == 0 else ret == -EINVAL && z == s)
            && z.duty == s.duty
            && (!(1 <= ticks <= PERIOD_MAX) ==> z == s)
            && GetPeriodNs(z) == (if s.duty <= ticks && 1 <= ticks <= PERIOD_MAX then Reported(ns) else GetPeriodNs(s))
            && ns - 37 <= Reported(ns) <= ns
  {
    hide Fields, Parts, DriverConfig, NsToTicks, TicksToNs;
    var c := EMPTY_REQUEST.(mask := PERIOD_TICKS, periodTicks := NsToTicks(s.tickHz, ns));
    ChecksWhatItWrites(s, c);
    NormaliseMeaning(s, c);
    NormalMaskMeaning(c.mask);
    AskedOne(s, c);
    DriverParts(s, c);
    PartsTiming(s, c);
    ConfigFrame(s, c);
    ReportedClose(ns);
    if !(1 <= c.periodTicks <= PERIOD_MAX) {
      PeriodIgnored(s, c);
    }
  }

  /** A period alone that the driver refuses changes nothing. */
  lemma PeriodIgnored(s: Chan, c: Request)
    requires c.mask == PERIOD_TICKS && !(1 <= c.periodTicks <= PERIOD_MAX)
    ensures Parts(s, c) == s
  {
    AcceptedPeriods(c.periodTicks);
  }

  lemma AskedOne(s: Chan, c: Request)
    requires Has(c.mask, PERIOD_TICKS) || Has(c.mask, DUTY_TICKS) || Has(c.mask, POLARITY)
    ensures DriverConfig(s, c).1 == 0
  {
  }

  /** A duty in nanoseconds is refused exactly when it is longer than the stored period, and read
      back within 37 ns otherwise. */
  lemma SetDutyThenGet(s: Chan, ns: Word)
    requires s.tickHz == CLK_27MHZ
    ensures var (z, ret) := SetDutyNs(s, ns);
            && (if NsToTicks(CLK_27MHZ, ns) <= s.period then ret == 0 && GetDutyNs(z) == Reported(ns)
                else ret == -EINVAL && z == s)
            && z.period == s.period && ns - 37 <= Reported(ns) <= ns
  {
    hide NsToTicks, TicksToNs, Low18, Reported;
    var c := EMPTY_REQUEST.(mask := DUTY_TICKS, dutyTicks := NsToTicks(s.tickHz, ns));
    ChecksWhatItWrites(s, c);
    ReportedClose(ns);
  }

  /** What a duty register holds that was written under a prescale. */
  function WrittenDuty(s: Chan, duty: Word): Word {
    if duty == s.period then 0x2_0000 else duty / (PrescaleField(s.regs.ctrl) + 1) % 0x4_0000
  }

  /** A duty update moves the stored duty and the duty register, and nothing else. */
  lemma DutyTouches(s: Chan, duty: Word)
    ensures ConfigDuty(s, duty) == s.(duty := duty, regs := s.regs.(duty := WrittenDuty(s, duty)))
  {
    hide PrescaleField;
  }

  /** Setting a duty in nanoseconds moves the stored duty and the duty register, and nothing else. */
  lemma SetDutyTouches(s: Chan, ns: Word)
    ensures var (z, ret) := SetDutyNs(s, ns);
            && z == s.(duty := z.duty, regs := s.regs.(duty := z.regs.duty))
            && (ret == 0 ==> z.duty == NsToTicks(s.tickHz, ns) && z.regs.duty == WrittenDuty(s, z.duty))
            && (ret != 0 ==> z == s)
  {
    hide NsToTicks, WrittenDuty, ConfigDuty;
    var c := EMPTY_REQUEST.(mask := DUTY_TICKS, dutyTicks := NsToTicks(s.tickHz, ns));
    ChecksWhatItWrites(s, c);
    DutyTouches(s, NsToTicks(s.tickHz, ns));
  }

  /** So does setting it in percent. */
  lemma SetPercentTouches(s: Chan, percent: Int32)
    ensures var (z, ret) := SetDutyPercent(s, percent);
            && z == s.(duty := z.duty, regs := s.regs.(duty := z.regs.duty))
            && (ret == 0 ==> z.regs.duty == WrittenDuty(s, z.duty))
            && (ret != 0 ==> z == s)
  {
    hide PercentOf, WrittenDuty, ConfigDuty;
    var c := EMPTY_REQUEST.(mask := DUTY_PERCENT, dutyPercent := percent);
    ChecksWhatItWrites(s, c);
    NormaliseMeaning(s, c);
    NormalMaskMeaning(c.mask);
    OnlyDuty();
    DutyTouches(s, Normalise(s, c).dutyTicks);
  }

  /** A percentage alone is a duty alone. */
  lemma OnlyDuty()
    ensures NormalMask(DUTY_PERCENT) == DUTY_TICKS
  {
  }

  /** Setting a period in nanoseconds moves the stored period, the prescale field, and the duty and
      period registers as stated, and nothing else; a period outside 1 to 2^24 ticks moves nothing. */
  lemma SetPeriodTouches(s: Chan, ns: Word)
    ensures var (z, ret) := SetPeriodNs(s, ns);
            var ticks := NsToTicks(s.tickHz, ns);
            var step := Prescale(ticks) + 1;
            && z == s.(period := z.period,
                       regs := s.regs.(ctrl := z.regs.ctrl, duty := z.regs.duty, perval := z.regs.perval))
            && Fields(z.regs.ctrl) == Fields(s.regs.ctrl).(prescale := Fields(z.regs.ctrl).prescale)
            && (ret != 0 || !(1 <= ticks <= PERIOD_MAX) ==> z == s)
            && (ret == 0 && 1 <= ticks <= PERIOD_MAX ==>
                  && z.period == ticks && Fields(z.regs.ctrl).prescale == Prescale(ticks)
                  && z.regs.perval == (if ticks == s.duty then s.regs.perval else PeriodCount(ticks))
                  && z.regs.duty == (if ticks == s.duty then 0x2_0000
                                     else if PrescaleField(s.regs.ctrl) == Prescale(ticks) then s.regs.duty
                                     else if s.duty < step then 0x3_FFFF else s.duty / step - 1))
  {
    hide NsToTicks, ConfigPeriod, Fields, PrescaleField, Prescale, PeriodCount;
    var c := EMPTY_REQUEST.(mask := PERIOD_TICKS, periodTicks := NsToTicks(s.tickHz, ns));
    ChecksWhatItWrites(s, c);
    if s.duty <= NsToTicks(s.tickHz, ns) {
      PeriodTouches(s, NsToTicks(s.tickHz, ns));
    }
  }

  lemma PeriodTouches(s: Chan, ticks: Word)
    requires s.duty <= ticks
    ensures var z := ConfigPeriod(s, ticks);
            var step := Prescale(ticks) + 1;
            && z == s.(period := z.period,
                       regs := s.regs.(ctrl := z.regs.ctrl, duty := z.regs.duty, perval := z.regs.perval))
            && Fields(z.regs.ctrl) == Fields(s.regs.ctrl).(prescale := Fields(z.regs.ctrl).prescale)
            && (!(1 <= ticks <= PERIOD_MAX) ==> z == s)
            && (1 <= ticks <= PERIOD_MAX ==>
                  && z.period == ticks && Fields(z.regs.ctrl).prescale == Prescale(ticks)
                  && z.regs.perval == (if ticks == s.duty then s.regs.perval else PeriodCount(ticks))
                  && z.regs.duty == (if ticks == s.duty then 0x2_0000
                                     else if PrescaleField(s.regs.ctrl) == Prescale(ticks) then s.regs.duty
                                     else if s.duty < step then 0x3_FFFF else s.duty / step - 1))
  {
    hide WithPrescale, PrescaleField, Prescale, PeriodCount, Low18, Wrap32;
    AcceptedPeriods(ticks);
    FieldsPrescale(s.regs.ctrl);
    if 1 <= ticks <= PERIOD_MAX {
      PrescaleWritten(s.regs.ctrl, Prescale(ticks));
      EncodingFits(ticks, 0);
      if s.duty < ticks {
        EncodingFits(ticks, s.duty);
        OneLess(s.duty, Prescale(ticks) + 1);
      }
    }
    hide Fields;
  }

  lemma FieldsPrescale(ctrl: bv32)
    ensures Fields(ctrl).prescale == PrescaleField(ctrl)
  {
  }

  /** Setting the polarity always succeeds; it is read back as 0 or 1, the polarity bit is set for
      active low, and nothing else changes. */
  lemma SetPolarityThenGet(s: Chan, on: Int32)
    ensures var (z, ret) := SetPolarity(s, on);
            && ret == 0 && GetPolarity(z) == (if on != 0 then 1 else 0)
            && Fields(z.regs.ctrl) == Fields(s.regs.ctrl).(activeLow := on == 0)
            && z == s.(activeHigh := z.activeHigh, regs := s.regs.(ctrl := z.regs.ctrl))
  {
    hide Fields, WithPolarity;
    var polarity := if on != 0 then 1 else 0;
    ChecksWhatItWrites(s, EMPTY_REQUEST.(mask := POLARITY, polarity := polarity));
    PolarityWritten(s.regs.ctrl, polarity != 0);
  }

  /* ----- the percentage ----- */

  /** What is read after `percent` is set at `period`. */
  function ReadBack(period: Word, percent: nat): int
    requires 1 <= period <= PERIOD_MAX && percent <= 100
  {
    Wrap32(period * percent / 100 * 1000 / 27 * 100) / (period * 1000 / 27)
  }

  lemma ShareBelow(period: nat, percent: nat)
    requires percent <= 100
    ensures 0 <= period * percent / 100 <= period
  {
    MulMono(percent, 100, period);
    MulMono(0, percent, period);
    DivMono(period * percent, period * 100, 100);
  }

  lemma PercentOfPeriod(period: Word, percent: nat)
    requires period <= PERIOD_MAX && percent <= 100
    ensures PercentOf(period, percent) == period * percent / 100 <= period
  {
    ShareBelow(period, percent);
    MulMono(percent, 100, period);
    MulMono(0, percent, period);
    assert Wrap32(percent) == percent;
    assert Wrap32(period * percent) == period * percent;
  }

  /** A negative factor of a 32-bit product may be wrapped first. */
  lemma WrappedFactor(x: Word, y: Int32)
    ensures Wrap32(x * Wrap32(y)) == Wrap32(x * y)
  {
    if y < 0 {
      WrapShift(y, 1);
      assert Wrap32(y) == y + 0x1_0000_0000;
      hide Wrap32;
      assert x * (y + 0x1_0000_0000) == x * y + x * 0x1_0000_0000;
      WrapShift(x * y, x);
    }
  }

  lemma WrapShift(x: int, k: int)
    ensures Wrap32(x + k * 0x1_0000_0000) == Wrap32(x)
  {
  }

  /** Any `int` whatever as a percentage, on any channel: it is accepted exactly when its 32-bit
      product with the stored period, cut to whole hundredths, is at most that period, and then that
      is the duty. */
  lemma AnyPercent(s: Chan, percent: Int32)
    ensures var product := Wrap32(s.period * percent);
            var (z, ret) := SetDutyPercent(s, percent);
            if product < 100 * (s.period + 1) then ret == 0 && z.duty == product / 100 && z.period == s.period
            else ret == -EINVAL && z == s
  {
    hide Low18, PrescaleField;
    var c := EMPTY_REQUEST.(mask := DUTY_PERCENT, dutyPercent := percent);
    WrappedFactor(s.period, percent);
    ChecksWhatItWrites(s, c);
    NormaliseMeaning(s, c);
    NormalMaskMeaning(c.mask);
    if PercentOf(s.period, percent) <= s.period {
      SetDuty(s, c);
    }
  }

  /** Above 100 percent, with a product that does not wrap, a percentage is accepted exactly when its
      excess over the period is less than one tick. */
  lemma PercentAbove100(s: Chan, percent: Int32)
    requires 100 < percent && s.period * percent < 0x1_0000_0000
    ensures SetDutyPercent(s, percent).1 == 0 <==> s.period * (percent - 100) < 100
  {
    hide SetDutyPercent;
    MulMono(0, s.period, percent);
    AnyPercent(s, percent);
    assert s.period * (percent - 100) == s.period * percent - s.period * 100;
  }

  /** What is read as a percentage: -1 without a reported period, otherwise the quotient of 100 times the
      reported duty, in 32 bits, by the reported period, rounded down. */
  lemma DutyPercentMeaning(s: Chan)
    ensures GetPeriodNs(s) == 0 ==> GetDutyPercent(s) == -1
    ensures GetPeriodNs(s) != 0 ==>
              var r := Wrap32(GetDutyPercent(s));
              r * GetPeriodNs(s) <= 100 * GetDutyNs(s) % 0x1_0000_0000 < (r + 1) * GetPeriodNs(s)
  {
    hide GetPeriodNs, GetDutyNs, Signed32;
    if GetPeriodNs(s) != 0 {
      DivBracket(Wrap32(GetDutyNs(s) * 100), GetPeriodNs(s));
    }
  }

  /** On a granted channel whose period is reported as at most 42949672 ns, that is the whole percentage
      of the period that the duty is, from 0 to 100. */
  lemma DutyPercentFits(s: Chan)
    requires Clocked(s) && 1 <= GetPeriodNs(s) <= 42_949_672
    ensures var r := GetDutyPercent(s);
            0 <= r <= 100 && r * GetPeriodNs(s) <= 100 * GetDutyNs(s) < (r + 1) * GetPeriodNs(s)
  {
    hide GetPeriodNs, GetDutyNs;
    OrderedReports(s);
    var p, d := GetPeriodNs(s), GetDutyNs(s);
    DivBracket(d * 100, p);
    DivBelow(d * 100, p, 101);
    DivAtLeast(d * 100, p, 0);
  }

  /** What is read on a channel with a period, whose duty is a percentage of it. */
  lemma PercentRead(s: Chan, percent: nat)
    requires s.tickHz == CLK_27MHZ && 1 <= s.period <= PERIOD_MAX && percent <= 100
    requires s.duty == s.period * percent / 100
    ensures GetDutyPercent(s) == ReadBack(s.period, percent)
  {
    ShareBelow(s.period, percent);
    At27MHz(s.period);
    At27MHz(s.duty);
    DivBelow(Wrap32(s.duty * 1000 / 27 * 100), s.period * 1000 / 27, 0x8000_0000);
  }

  /** Setting a percentage on a channel with a period succeeds, and what is read is `ReadBack`. */
  lemma PercentThroughChannel(s: Chan, percent: nat)
    requires s.tickHz == CLK_27MHZ && 1 <= s.period <= PERIOD_MAX && percent <= 100
    ensures var (z, ret) := SetDutyPercent(s, percent);
            ret == 0 && z.period == s.period && z.duty == s.period * percent / 100
            && GetDutyPercent(z) == ReadBack(s.period, percent)
  {
    var c := EMPTY_REQUEST.(mask := DUTY_PERCENT, dutyPercent := percent);
    PercentOfPeriod(s.period, percent);
    SetDuty(s, c);
    PercentRead(SetDutyPercent(s, percent).0, percent);
  }

  /** A duty of `d` ns lies within one percent of `percent` of a period of `p` ns. */
  predicate Near(p: nat, d: nat, percent: nat) {
    p * percent - p <= d * 100 < p * percent + p
  }

  lemma TimesPercent(period: nat, p: nat, percent: nat)
    requires p * 27 <= period * 1000 <= p * 27 + 26
    ensures p * percent * 27 <= period * percent * 1000 <= p * percent * 27 + 26 * percent
  {
    MulMono(p * 27, period * 1000, percent);
    MulMono(period * 1000, p * 27 + 26, percent);
  }

  /** The brackets of the three inner floors, combined. */
  lemma NearFrom102(period: nat, p: nat, duty: nat, d: nat, percent: nat)
    requires 102 <= period && percent <= 100
    requires p * 27 <= period * 1000 < p * 27 + 27
    requires duty * 100 <= period * percent < duty * 100 + 100
    requires d * 27 <= duty * 1000 < d * 27 + 27
    ensures Near(p, d, percent)
  {
    TimesPercent(period, p, percent);
  }

  lemma At99(percent: nat, duty: nat)
    requires percent <= 100 && duty == if percent == 0 then 0 else percent - 1
    ensures 99 * percent / 100 == duty && 99 * 1000 / 27 == 3666 && Near(3666, duty * 1000 / 27, percent)
  {
    DivBracket(duty * 1000, 27);
  }

  lemma At100(percent: nat)
    requires percent <= 100
    ensures 100 * percent / 100 == percent && 100 * 1000 / 27 == 3703 && Near(3703, percent * 1000 / 27, percent)
  {
    DivBracket(percent * 1000, 27);
  }

  lemma At101(percent: nat, duty: nat)
    requires percent <= 100 && duty == if percent == 100 then 101 else percent
    ensures 101 * percent / 100 == duty && 101 * 1000 / 27 == 3740 && Near(3740, duty * 1000 / 27, percent)
  {
    DivBracket(duty * 1000, 27);
  }

  lemma NearBelow102(period: Word, percent: nat)
    requires 99 <= period < 102 && percent <= 100
    ensures Near(period * 1000 / 27, period * percent / 100 * 1000 / 27, percent)
  {
    hide Near;
    if period == 99 {
      At99(percent, if percent == 0 then 0 else percent - 1);
    } else if period == 100 {
      At100(percent);
    } else {
      At101(percent, if percent == 100 then 101 else percent);
    }
  }

  lemma ReportFits(duty: nat)
    requires duty <= 1_159_641
    ensures Wrap32(duty * 1000 / 27 * 100) == duty * 1000 / 27 * 100
  {
    DivBracket(duty * 1000, 27);
  }

  /** The reading, when its product by 100 fits: the quotient of the duty and the period in ns. */
  lemma ReadBackFits(period: Word, percent: nat)
    requires 1 <= period <= 1_159_641 && percent <= 100
    ensures ReadBack(period, percent) == period * percent / 100 * 1000 / 27 * 100 / (period * 1000 / 27)
  {
    ShareBelow(period, percent);
    ReportFits(period * percent / 100);
  }

  /** From 99 to 1159641 ticks the reading is the percentage or one less. */
  lemma PercentClose(period: Word, percent: nat)
    requires 99 <= period <= 1_159_641 && percent <= 100
    ensures percent - 1 <= ReadBack(period, percent) <= percent
  {
    var p := period * 1000 / 27;
    var d := period * percent / 100 * 1000 / 27;
    if period < 102 {
      NearBelow102(period, percent);
    } else {
      MulMono(0, percent, period);
      DivBracket(period * 1000, 27);
      DivBracket(period * percent, 100);
      DivBracket(period * percent / 100 * 1000, 27);
      NearFrom102(period, p, period * percent / 100, d, percent);
    }
    ReadBackFits(period, percent);
    assert (percent - 1) * p == p * percent - p;
    assert (percent + 1) * p == p * percent + p;
    DivBelow(d * 100, p, percent + 1);
    DivAtLeast(d * 100, p, percent - 1);
  }

  /** Below 99 ticks this percentage is read back at least two too low. */
  function Misread(period: Word): (percent: nat)
    requires 1 <= period <= 98
    ensures 2 <= percent <= 51
  {
    100 / (100 - period) + 1
  }

  lemma MisreadDuty(period: Word)
    requires 1 <= period <= 98
    ensures period * Misread(period) / 100 == Misread(period) - 2
    ensures (Misread(period) - 1) * (100 - period) <= 100
  {
    var gap := 100 - period;
    var q := Misread(period);
    DivBracket(100, gap);
    assert period * q == 100 * q - q * gap;
    assert q * gap == (q - 1) * gap + gap;
    DivUnique(period * q, 100, q - 2);
  }

  lemma FactorsOf100(a: nat, gap: nat)
    requires 2 <= gap <= 99 && a * gap == 100
    ensures gap == 2 || gap == 4 || gap == 5 || gap == 10 || gap == 20 || gap == 25 || gap == 50
  {
  }

  /** The gaps that divide 100, by computation. */
  lemma FarBelowExact(gap: nat, a: nat, p: nat, d: nat)
    requires 2 <= gap <= 99 && a * gap == 100
    requires p * 27 <= (100 - gap) * 1000 < p * 27 + 27
    requires d * 27 <= (a - 1) * 1000 < d * 27 + 27
    ensures d * 100 < a * p
  {
    FactorsOf100(a, gap);
    if gap == 2 {
      assert a * p == 50 * 3629;
    } else if gap == 4 {
      assert a * p == 25 * 3555;
    } else if gap == 5 {
      assert a * p == 20 * 3518;
    } else if gap == 10 {
      assert a * p == 10 * 3333;
    } else if gap == 20 {
      assert a * p == 5 * 2962;
    } else if gap == 25 {
      assert a * p == 4 * 2777;
    } else {
      assert a * p == 2 * 1851;
    }
  }

  /** The other gaps leave room for the floors. */
  lemma FarBelowProduct(gap: nat, q: nat, p: nat, d: nat)
    requires 3 <= gap && 2 <= q && (q - 1) * gap <= 99
    requires p * 27 >= 1000 * (100 - gap) - 26
    requires d * 27 <= (q - 2) * 1000
    ensures d * 100 < (q - 1) * p
  {
    MulMono(3, gap, q - 1);
    MulMono(1000 * (100 - gap) - 26, p * 27, q - 1);
    assert (1000 * (100 - gap) - 26) * (q - 1) == 99_974 * (q - 1) - 1000 * ((q - 1) * gap);
    assert p * 27 * (q - 1) == 27 * ((q - 1) * p);
  }

  lemma PercentFarBelow(period: Word)
    requires 1 <= period <= 98
    ensures ReadBack(period, Misread(period)) <= Misread(period) - 2
  {
    var gap := 100 - period;
    var q := Misread(period);
    var p := period * 1000 / 27;
    var d := (q - 2) * 1000 / 27;
    MisreadDuty(period);
    ReadBackFits(period, q);
    if (q - 1) * gap == 100 {
      FarBelowExact(gap, q - 1, p, d);
    } else {
      FarBelowProduct(gap, q, p, d);
    }
    DivBelow(d * 100, p, q - 1);
  }

  /** From 1159642 ticks on the product by 100 wraps, and even 100 percent is not read back. */
  lemma PercentFarAbove(period: Word)
    requires 1_159_642 <= period <= PERIOD_MAX
    ensures ReadBack(period, 100) < 99
  {
    var p := period * 1000 / 27;
    assert period * 100 / 100 == period;
    assert 0x1_0000_0000 <= p * 100;
    assert p < 0x1_0000_0000;
    DivBelow(Wrap32(p * 100), p, 99);
  }

  /** Every percentage of a period is read back as itself or one less. */
  ghost predicate ReadsClose(period: Word)
    requires 1 <= period <= PERIOD_MAX
  {
    forall percent: nat :: percent <= 100 ==> percent - 1 <= ReadBack(period, percent) <= percent
  }

  /** That is so exactly when the reported period is from 3666 ns to 42949672 ns. */
  lemma ReadsCloseExactly(period: Word)
    requires 1 <= period <= PERIOD_MAX
    ensures ReadsClose(period) <==> 3666 <= TicksToNs(CLK_27MHZ, period) <= 42_949_672
  {
    hide ReadBack;
    At27MHz(period);
    if 99 <= period <= 1_159_641 {
      forall percent: nat | percent <= 100
        ensures percent - 1 <= ReadBack(period, percent) <= percent
      {
        PercentClose(period, percent);
      }
    } else if period < 99 {
      PercentFarBelow(period);
    } else {
      PercentFarAbove(period);
    }
  }

  /** Every percentage set is read back as itself or one less exactly when the reported period is
      from 3666 ns to 42949672 ns. */
  lemma PercentRoundTrip(s: Chan)
    requires s.tickHz == CLK_27MHZ && 1 <= s.period <= PERIOD_MAX
    ensures (forall percent :: 0 <= percent <= 100 ==>
               percent - 1 <= GetDutyPercent(SetDutyPercent(s, percent).0) <= percent)
            <==> 3666 <= GetPeriodNs(s) <= 42_949_672
  {
    hide ReadBack, SetDutyPercent, GetDutyPercent;
    ReadsCloseExactly(s.period);
    forall percent: nat | percent <= 100
      ensures GetDutyPercent(SetDutyPercent(s, percent).0) == ReadBack(s.period, percent)
    {
      PercentThroughChannel(s, percent);
    }
  }

  /** A percentage that comes with a new period in nanoseconds, as the character device sends them, is
      taken of that period, whatever else the request holds and the channel held before. */
  lemma PercentWithPeriod(s: Chan, c: Request, percent: nat)
    requires s.tickHz == CLK_27MHZ && Has(c.mask, PERIOD_NS) && Has(c.mask, DUTY_PERCENT)
    requires 1 <= NsToTicks(CLK_27MHZ, c.periodNs) <= PERIOD_MAX && percent <= 100
    ensures var period := NsToTicks(CLK_27MHZ, c.periodNs);
            var (z, ret) := Config(s, c.(dutyPercent := percent));
            && ret == 0 && z.period == period && z.duty == period * percent / 100
            && GetPeriodNs(z) == Reported(c.periodNs) && GetDutyPercent(z) == ReadBack(period, percent)
  {
    hide Fields, Parts, DriverConfig, NsToTicks, TicksToNs, PercentOf, Has;
    var c' := c.(dutyPercent := percent);
    var n := Normalise(s, c');
    var period := NsToTicks(CLK_27MHZ, c.periodNs);
    NormaliseMeaning(s, c');
    NormalMaskMeaning(c.mask);
    PercentOfPeriod(period, percent);
    ChecksWhatItWrites(s, c');
    AskedOne(s, n);
    DriverParts(s, n);
    PartsTiming(s, n);
    ConfigFrame(s, c');
    ReportedClose(c.periodNs);
    PercentRead(Config(s, c').0, percent);
  }

  /** With the period in the same call, every percentage is read back as itself or one less exactly
      when that period is reported as 3666 ns to 42949672 ns. */
  lemma PercentWithPeriodRoundTrip(s: Chan, c: Request)
    requires s.tickHz == CLK_27MHZ && Has(c.mask, PERIOD_NS) && Has(c.mask, DUTY_PERCENT)
    requires 1 <= NsToTicks(CLK_27MHZ, c.periodNs) <= PERIOD_MAX
    ensures (forall percent :: 0 <= percent <= 100 ==>
               percent - 1 <= GetDutyPercent(Config(s, c.(dutyPercent := percent)).0) <= percent)
            <==> 3666 <= Reported(c.periodNs) <= 42_949_672
  {
    hide ReadBack, Config, GetDutyPercent, NsToTicks, TicksToNs, Reported, Has;
    var period := NsToTicks(CLK_27MHZ, c.periodNs);
    ReportedClose(c.periodNs);
    ReadsCloseExactly(period);
    forall percent: nat | percent <= 100
      ensures GetDutyPercent(Config(s, c.(dutyPercent := percent)).0) == ReadBack(period, percent)
    {
      PercentWithPeriod(s, c, percent);
    }
  }
}
