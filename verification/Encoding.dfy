/** How a period and a duty, both in ticks, become the prescale, period and duty counts of the
    hardware (driver/_pwm.c:113-182, field widths in driver/_pwm.h:101-132). */
module Encoding {
  import opened Words
  import opened Ticks

  /** One more than the largest period count: PWM_PERVAL_BITS is 17. */
  const COUNT_RANGE: Word := 0x2_0000

  const PRESCALE_MAX: Word := 127

  /** The longest period the hardware can be given: 2^24 ticks. */
  const PERIOD_MAX: Word := 0x100_0000

  /** PWM_FDCYCLE: the bit of the duty register that selects a full duty cycle. */
  const FULL_DUTY: Word := 0x2_0000

  /** The prescale of a period. The subtraction is unsigned, so a zero period wraps to a
      prescale far above PRESCALE_MAX. */
  function Prescale(period: Word): Word {
    Wrap32(period - 1) / COUNT_RANGE
  }

  /** Masking with PWM_DUTY_MSK or PWM_PERVAL_MSK, which both keep the low 18 bits. */
  function Low18(x: int): Word {
    x % 0x4_0000
  }

  /** The count of the period register. */
  function PeriodCount(period: Word): int {
    period / (Prescale(period) + 1) - 1
  }

  /** The duty register that stands for `duty` out of `period`. */
  function DutyCount(period: Word, duty: Word): Word {
    if duty == period then FULL_DUTY else duty / (Prescale(period) + 1)
  }

  /** The number of clock ticks that one programmed period lasts. */
  function ProgrammedLength(period: Word): int {
    (Prescale(period) + 1) * (PeriodCount(period) + 1)
  }

  /** The driver accepts exactly the periods from 1 to 2^24 ticks. */
  lemma AcceptedPeriods(period: Word)
    ensures Prescale(period) <= PRESCALE_MAX <==> 1 <= period <= PERIOD_MAX
    ensures PERIOD_MAX == 0x100_0000
  {
  }

  /** The prescale is the least value under which the period fits its register. */
  lemma PrescaleIsLeast(period: Word, k: nat)
    requires 1 <= period
    ensures period <= (k + 1) * COUNT_RANGE <==> Prescale(period) <= k
  {
  }

  lemma CountsFit(period: nat, duty: nat, step: nat)
    requires duty < period <= step * COUNT_RANGE && step <= period
    ensures 1 <= period / step <= COUNT_RANGE
    ensures 0 <= duty / step < COUNT_RANGE && duty / step <= period / step
  {
    DivAtLeast(period, step, 1);
    DivBelow(period, step, COUNT_RANGE + 1);
    DivBelow(duty, step, COUNT_RANGE);
    DivAtLeast(duty, step, 0);
    DivMono(duty, period, step);
  }

  lemma LengthFits(period: nat, k: nat)
    requires k * COUNT_RANGE < period
    ensures 0 <= period - (k + 1) * (period / (k + 1)) <= k
    ensures (period - (k + 1) * (period / (k + 1))) * COUNT_RANGE < period
  {
    DivBracket(period, k + 1);
    MulMono(period - (k + 1) * (period / (k + 1)), k, COUNT_RANGE);
  }

  /** Of the pure encoding of an accepted period and a duty below it, nothing is cut by a mask, the
      duty never reaches the full-duty bit, the duty count never exceeds the period, and the
      programmed period falls short of the requested one by less than a prescaled step, a relative
      error below 2^-17. What a change of the prescale writes instead of the duty's encoding is
      stated by `Refinement.NewPrescaleDuty`. */
  lemma EncodingFits(period: Word, duty: Word)
    requires 1 <= period <= PERIOD_MAX && duty < period
    ensures 0 <= PeriodCount(period) < COUNT_RANGE
    ensures Low18(PeriodCount(period)) == PeriodCount(period)
    ensures DutyCount(period, duty) < FULL_DUTY
    ensures Low18(DutyCount(period, duty)) == DutyCount(period, duty)
    ensures DutyCount(period, duty) <= PeriodCount(period) + 1
    ensures 0 <= period - ProgrammedLength(period) <= Prescale(period)
    ensures (period - ProgrammedLength(period)) * COUNT_RANGE < period
  {
    CountsFit(period, duty, Prescale(period) + 1);
    LengthFits(period, Prescale(period));
  }

  /** The length that the pure encoding of a requested time stands for is never above that time and
      is short of it by less than one prescaled clock step. When a call programs just that length is
      stated by `Refinement.CallAccuracy`. */
  lemma ProgrammedAccuracy(tickHz: Word, ns: Word)
    requires tickHz <= NS_PER_S
    requires 1 <= NsToTicks(tickHz, ns) <= PERIOD_MAX
    ensures var period := NsToTicks(tickHz, ns);
            var length := ProgrammedLength(period);
            length * NS_PER_S <= ns * tickHz < (length + Prescale(period) + 1) * NS_PER_S
  {
    NsToTicksFloor(tickHz, ns);
    EncodingFits(NsToTicks(tickHz, ns), 0);
  }

  /** The documented periods, 38 ns to 155344592 ns at 27 MHz (include/pwm.h:97-98), are exactly
      those of 1 to 2^22 - 1 ticks; they all fit the hardware, with a prescale of at most 31. */
  lemma DocumentedRange(ns: Word)
    ensures 1 <= NsToTicks(CLK_27MHZ, ns) < 0x40_0000 <==> 38 <= ns <= 155_344_592
    ensures 38 <= ns <= 155_344_592 ==> Prescale(NsToTicks(CLK_27MHZ, ns)) <= 31
  {
    At27MHz(ns);
  }
}
