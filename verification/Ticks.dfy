/** The conversions between nanoseconds and clock ticks (driver/pwm_core.c:217-241). */
module Ticks {
  import opened Words

  const NS_PER_S: Word := 1_000_000_000

  /** The clock of every channel (driver/_pwm.c:446-449). */
  const CLK_27MHZ: Word := 27_000_000

  /** `pwm_ns_to_ticks`: a 64-bit product, `do_div` by 10^9, and a 32-bit result. */
  function NsToTicks(tickHz: Word, ns: Word): Word {
    Wrap32(Wrap64(ns * tickHz) / NS_PER_S)
  }

  /** `pwm_ticks_to_ns`: zero without a clock, otherwise the converse of `NsToTicks`. */
  function TicksToNs(tickHz: Word, ticks: Word): Word {
    if tickHz == 0 then 0 else Wrap32(Wrap64(ticks * NS_PER_S) / tickHz)
  }

  /** A channel without a clock converts everything to zero. */
  lemma NoClock(x: Word)
    ensures NsToTicks(0, x) == 0 && TicksToNs(0, x) == 0
  {
  }

  /** The 64-bit products never wrap, for any two 32-bit operands. */
  lemma ProductsFit(a: Word, b: Word)
    ensures Wrap64(a * b) == a * b
  {
    MulMono(a, 0xFFFF_FFFF, b);
    MulMono(0, a, b);
  }

  /** For a clock of at most 1 GHz the tick count is the exact floor: no 32-bit truncation. */
  lemma NsToTicksFloor(tickHz: Word, ns: Word)
    requires tickHz <= NS_PER_S
    ensures NsToTicks(tickHz, ns) == ns * tickHz / NS_PER_S <= ns
    ensures NsToTicks(tickHz, ns) * NS_PER_S <= ns * tickHz < (NsToTicks(tickHz, ns) + 1) * NS_PER_S
  {
    ProductsFit(ns, tickHz);
    MulMono(tickHz, NS_PER_S, ns);
    DivBracket(ns * tickHz, NS_PER_S);
    DivBelow(ns * tickHz, NS_PER_S, ns + 1);
    MulMono(0, ns, tickHz);
  }

  /** The tick count that `pwm_ticks_to_ns` reports without truncating. */
  ghost predicate Reportable(tickHz: Word, ticks: Word) {
    tickHz != 0 && ticks * NS_PER_S / tickHz < 0x1_0000_0000
  }

  lemma TicksToNsFloor(tickHz: Word, ticks: Word)
    requires Reportable(tickHz, ticks)
    ensures TicksToNs(tickHz, ticks) == ticks * NS_PER_S / tickHz
    ensures TicksToNs(tickHz, ticks) * tickHz <= ticks * NS_PER_S < TicksToNs(tickHz, ticks) * tickHz + tickHz
  {
    ProductsFit(ticks, NS_PER_S);
    DivBracket(ticks * NS_PER_S, tickHz);
    DivAtLeast(ticks * NS_PER_S, tickHz, 0);
  }

  /** ns to ticks and back loses exactly the rounded-up remainder, on every 32-bit input. */
  lemma NsRoundTrip(tickHz: Word, ns: Word)
    requires 0 < tickHz <= NS_PER_S
    ensures Reportable(tickHz, NsToTicks(tickHz, ns))
    ensures TicksToNs(tickHz, NsToTicks(tickHz, ns)) == ns - CeilDiv(ns * tickHz % NS_PER_S, tickHz)
  {
    NsToTicksFloor(tickHz, ns);
    var ticks := NsToTicks(tickHz, ns);
    var r := ns * tickHz % NS_PER_S;
    var lost := CeilDiv(r, tickHz);
    assert ticks * NS_PER_S == ns * tickHz - r;
    calc {
      (ns - lost) * tickHz;
      ns * tickHz - lost * tickHz;
    }
    DivUnique(ticks * NS_PER_S, tickHz, ns - lost);
    TicksToNsFloor(tickHz, ticks);
  }

  /** At 27 MHz that loss is at most 37 ns. */
  lemma NsRoundTripAt27MHz(ns: Word)
    ensures 0 <= ns - TicksToNs(CLK_27MHZ, NsToTicks(CLK_27MHZ, ns)) <= 37
  {
    NsRoundTrip(CLK_27MHZ, ns);
    var q := ns * 27 / 1000;
    DivUnique(ns * CLK_27MHZ, NS_PER_S, q);
    assert ns * CLK_27MHZ % NS_PER_S == (ns * 27 - q * 1000) * 1_000_000;
  }

  /** Without truncation, ticks to ns and back loses one tick unless the tick count is a whole
      number of nanoseconds. */
  lemma TicksRoundTripReportable(tickHz: Word, ticks: Word)
    requires 0 < tickHz <= NS_PER_S && Reportable(tickHz, ticks)
    ensures NsToTicks(tickHz, TicksToNs(tickHz, ticks))
            == if ticks * NS_PER_S % tickHz == 0 then ticks else ticks - 1
  {
    hide NsToTicks, TicksToNs;
    var x := ticks * NS_PER_S;
    var ns := TicksToNs(tickHz, ticks);
    TicksToNsFloor(tickHz, ticks);
    NsToTicksFloor(tickHz, ns);
    assert x % tickHz == x - ns * tickHz;
    DivUnique(ns * tickHz, NS_PER_S, if x % tickHz == 0 then ticks else ticks - 1);
  }

  /** A product that misses 2^32 of its factor is short by more than 10^9. */
  lemma MissedProduct(x: int, tickHz: int, q: int, ns: int)
    requires 1 <= tickHz && q * tickHz <= x && ns <= q - 0x1_0000_0000
    ensures ns * tickHz < x - NS_PER_S
  {
    MulMono(ns, q - 0x1_0000_0000, tickHz);
    assert (q - 0x1_0000_0000) * tickHz == q * tickHz - 0x1_0000_0000 * tickHz;
  }

  /** A truncated report loses more: at least 2^32 ns are missing. */
  lemma TicksTruncated(tickHz: Word, ticks: Word)
    requires 0 < tickHz <= NS_PER_S && !Reportable(tickHz, ticks)
    ensures NsToTicks(tickHz, TicksToNs(tickHz, ticks)) < ticks - 1
  {
    hide NsToTicks;
    var ns := TicksToNs(tickHz, ticks);
    ProductsFit(ticks, NS_PER_S);
    DivBracket(ticks * NS_PER_S, tickHz);
    NsToTicksFloor(tickHz, ns);
    MissedProduct(ticks * NS_PER_S, tickHz, ticks * NS_PER_S / tickHz, ns);
  }

  /** Ticks to ns and back loses at most one tick exactly when the report does not truncate. */
  lemma TicksRoundTrip(tickHz: Word, ticks: Word)
    requires 0 < tickHz <= NS_PER_S
    ensures ticks - 1 <= NsToTicks(tickHz, TicksToNs(tickHz, ticks)) <= ticks <==> Reportable(tickHz, ticks)
  {
    if Reportable(tickHz, ticks) {
      TicksRoundTripReportable(tickHz, ticks);
    } else {
      TicksTruncated(tickHz, ticks);
    }
  }

  lemma NsToTicksMono(tickHz: Word, a: Word, b: Word)
    requires tickHz <= NS_PER_S && a <= b
    ensures NsToTicks(tickHz, a) <= NsToTicks(tickHz, b)
  {
    NsToTicksFloor(tickHz, a);
    NsToTicksFloor(tickHz, b);
    MulMono(a, b, tickHz);
    DivMono(a * tickHz, b * tickHz, NS_PER_S);
  }

  lemma TicksToNsMono(tickHz: Word, a: Word, b: Word)
    requires a <= b && Reportable(tickHz, b)
    ensures Reportable(tickHz, a)
    ensures TicksToNs(tickHz, a) <= TicksToNs(tickHz, b)
  {
    DivMono(a * NS_PER_S, b * NS_PER_S, tickHz);
    TicksToNsFloor(tickHz, a);
    TicksToNsFloor(tickHz, b);
  }

  /** The two conversions at 27 MHz, in lowest terms. */
  lemma At27MHz(x: Word)
    ensures NsToTicks(CLK_27MHZ, x) == x * 27 / 1000
    ensures x <= 0x100_0000 ==> Reportable(CLK_27MHZ, x) && TicksToNs(CLK_27MHZ, x) == x * 1000 / 27
  {
    NsToTicksFloor(CLK_27MHZ, x);
    if x <= 0x100_0000 {
      TicksToNsFloor(CLK_27MHZ, x);
    }
  }
}
